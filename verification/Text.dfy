/** ASCII text operations with the meaning of Python's str methods. */
module Text {

  predicate IsSpace(c: char) {
    c == ' ' || '\t' <= c <= '\r' || '\U{1C}' <= c <= '\U{1F}'
  }

  predicate IsDigit(c: char) {
    '0' <= c <= '9'
  }

  predicate IsAlnum(c: char) {
    IsDigit(c) || 'a' <= c <= 'z'
  }

  function LowerChar(c: char): char {
    if 'A' <= c <= 'Z' then (c as int + 32) as char else c
  }

  function Lower(s: string): (r: string)
    ensures |r| == |s| && forall i :: 0 <= i < |s| ==> r[i] == LowerChar(s[i])
  {
    seq(|s|, i requires 0 <= i < |s| => LowerChar(s[i]))
  }

  predicate IsLower(s: string) {
    forall c :: c in s ==> !('A' <= c <= 'Z')
  }

  lemma LowerFixed(s: string)
    requires IsLower(s)
    ensures Lower(s) == s
  {
    assert forall i :: 0 <= i < |s| ==> s[i] in s;
  }

  /** str.strip(): whitespace dropped from both ends. */
  function Strip(s: string): (r: string)
    ensures Stripped(r) && |r| <= |s|
    ensures forall c :: c in r ==> c in s
  {
    if s == "" then s
    else if IsSpace(s[0]) then Strip(s[1..])
    else if IsSpace(s[|s| - 1]) then Strip(s[..|s| - 1])
    else s
  }

  predicate Stripped(s: string) {
    s != "" ==> !IsSpace(s[0]) && !IsSpace(s[|s| - 1])
  }

  /** The first `n` elements, or all of them. */
  function CapTo<T>(xs: seq<T>, n: nat): (r: seq<T>)
    ensures r <= xs && |r| <= n
  {
    if |xs| <= n then xs else xs[..n]
  }

  predicate AllDistinct<T(==)>(xs: seq<T>) {
    forall i, j :: 0 <= i < j < |xs| ==> xs[i] != xs[j]
  }

  predicate EndsWith(s: string, suffix: string) {
    |suffix| <= |s| && s[|s| - |suffix|..] == suffix
  }

  predicate OccursAt(s: string, needle: string, i: int) {
    0 <= i <= |s| - |needle| && s[i..i + |needle|] == needle
  }

  /** `needle in s`. */
  predicate Contains(s: string, needle: string) {
    exists i :: 0 <= i <= |s| && OccursAt(s, needle, i)
  }

  lemma ContainsChars(s: string, needle: string, c: char)
    requires Contains(s, needle) && c in needle
    ensures c in s
  {
    var i :| 0 <= i <= |s| && OccursAt(s, needle, i);
    var k :| 0 <= k < |needle| && needle[k] == c;
    assert s[i + k] == s[i..i + |needle|][k];
  }

  /** Decimal digits, most significant first. */
  function Digits(n: nat): string {
    if n < 10 then [(n + '0' as int) as char] else Digits(n / 10) + [(n % 10 + '0' as int) as char]
  }

  lemma {:induction false} DigitsChars(n: nat)
    ensures forall c :: c in Digits(n) ==> IsDigit(c)
  {
    if n >= 10 {
      DigitsChars(n / 10);
    }
  }

  // ----- splitting -------------------------------------------------------

  /** One more character in front of an already split text. */
  function Prepend(c: char, parts: seq<string>, sep: char): seq<string>
    requires |parts| >= 1
  {
    if c == sep then [""] + parts else [[c] + parts[0]] + parts[1..]
  }

  function Split(s: string, sep: char): (r: seq<string>)
    ensures |r| >= 1
  {
    if s == "" then [""]
    else Prepend(s[0], Split(s[1..], sep), sep)
  }

  function Join(parts: seq<string>, sep: char): string
    requires |parts| >= 1
  {
    if |parts| == 1 then parts[0] else parts[0] + [sep] + Join(parts[1..], sep)
  }

  lemma JoinPrepend(c: char, parts: seq<string>, sep: char)
    requires |parts| >= 1
    ensures Join(Prepend(c, parts, sep), sep) == [c] + Join(parts, sep)
  {
    if c == sep {
      assert ([""] + parts)[1..] == parts;
    } else {
      assert ([[c] + parts[0]] + parts[1..])[1..] == parts[1..];
    }
  }

  lemma {:induction false} JoinSplit(s: string, sep: char)
    ensures Join(Split(s, sep), sep) == s
  {
    if s != "" {
      JoinSplit(s[1..], sep);
      JoinPrepend(s[0], Split(s[1..], sep), sep);
    }
  }

  lemma {:induction false} SplitConcat(a: string, b: string, sep: char)
    ensures Split(a + [sep] + b, sep) == Split(a, sep) + Split(b, sep)
  {
    var whole := a + [sep] + b;
    if a == "" {
      assert whole[1..] == b;
    } else {
      assert whole[1..] == a[1..] + [sep] + b;
      SplitConcat(a[1..], b, sep);
      Prepended(a[0], Split(a[1..], sep), Split(b, sep), sep);
    }
  }

  lemma Prepended(c: char, left: seq<string>, right: seq<string>, sep: char)
    requires |left| >= 1
    ensures Prepend(c, left + right, sep) == Prepend(c, left, sep) + right
  {
    if c == sep {
      assert [""] + (left + right) == ([""] + left) + right;
    } else {
      assert (left + right)[1..] == left[1..] + right;
    }
  }

  lemma {:induction false} JoinConcat(a: seq<string>, b: seq<string>, sep: char)
    requires |a| >= 1 && |b| >= 1
    ensures Join(a + b, sep) == Join(a, sep) + [sep] + Join(b, sep)
  {
    if |a| == 1 {
      assert (a + b)[1..] == b;
    } else {
      assert (a + b)[1..] == a[1..] + b;
      JoinConcat(a[1..], b, sep);
    }
  }

  // ----- order -----------------------------------------------------------

  /** Strict lexicographic order by code point. */
  predicate Less(a: string, b: string) {
    if b == "" then false
    else if a == "" then true
    else if a[0] != b[0] then a[0] < b[0]
    else Less(a[1..], b[1..])
  }

  lemma LessIrreflexive(a: string)
    ensures !Less(a, a)
  {
  }

  lemma {:induction false} LessTransitive(a: string, b: string, c: string)
    requires Less(a, b) && Less(b, c)
    ensures Less(a, c)
  {
    if a != "" && a[0] == b[0] && b[0] == c[0] {
      LessTransitive(a[1..], b[1..], c[1..]);
    }
  }

  lemma {:induction false} LessTotal(a: string, b: string)
    ensures a == b || Less(a, b) || Less(b, a)
  {
    if a != "" && b != "" && a[0] == b[0] {
      LessTotal(a[1..], b[1..]);
      if a[1..] == b[1..] {
        assert a == [a[0]] + a[1..] && b == [b[0]] + b[1..];
      }
    }
  }

  ghost predicate StrictlySorted(s: seq<string>) {
    forall i, j :: 0 <= i < j < |s| ==> Less(s[i], s[j])
  }

  function Elements(s: seq<string>): set<string> {
    set x | x in s
  }

  lemma ElementsConcat(a: seq<string>, b: seq<string>)
    ensures Elements(a + b) == Elements(a) + Elements(b)
  {
  }

  /** Where `x` belongs in a sorted list. */
  function Insert(x: string, s: seq<string>): (r: seq<string>)
    ensures Elements(r) == Elements(s) + {x}
  {
    if s == [] then [x]
    else if x == s[0] then s
    else if Less(x, s[0]) then [x] + s
    else
      ElementsConcat([s[0]], s[1..]);
      ElementsConcat([s[0]], Insert(x, s[1..]));
      assert s == [s[0]] + s[1..];
      [s[0]] + Insert(x, s[1..])
  }

  lemma {:induction false} InsertSorted(x: string, s: seq<string>)
    requires StrictlySorted(s)
    ensures StrictlySorted(Insert(x, s))
  {
    if s != [] && x != s[0] {
      LessTotal(x, s[0]);
      if Less(x, s[0]) {
        forall j | 0 < j < |s| ensures Less(x, s[j]) {
          LessTransitive(x, s[0], s[j]);
        }
      } else {
        InsertSorted(x, s[1..]);
        var tail := Insert(x, s[1..]);
        forall j | 0 <= j < |tail| ensures Less(s[0], tail[j]) {
          assert tail[j] in Elements(tail);
        }
      }
    }
  }

  /** sorted(set(values)) */
  function Sorted(s: seq<string>): (r: seq<string>)
    ensures Elements(r) == Elements(s)
  {
    if s == [] then []
    else
      ElementsConcat(s[..|s| - 1], [s[|s| - 1]]);
      assert s == s[..|s| - 1] + [s[|s| - 1]];
      Insert(s[|s| - 1], Sorted(s[..|s| - 1]))
  }

  lemma {:induction false} SortedIsSorted(s: seq<string>)
    ensures StrictlySorted(Sorted(s))
  {
    if s != [] {
      SortedIsSorted(s[..|s| - 1]);
      InsertSorted(s[|s| - 1], Sorted(s[..|s| - 1]));
    }
  }

  /** A strictly sorted list is determined by its elements. */
  lemma {:induction false} SortedUnique(a: seq<string>, b: seq<string>)
    requires StrictlySorted(a) && StrictlySorted(b) && Elements(a) == Elements(b)
    ensures a == b
  {
    assert forall k :: 0 <= k < |a| ==> a[k] in Elements(b);
    assert forall k :: 0 <= k < |b| ==> b[k] in Elements(a);
    if a != [] {
      var i :| 0 <= i < |b| && b[i] == a[0];
      var j :| 0 <= j < |a| && a[j] == b[0];
      if i > 0 && j > 0 {
        LessTransitive(a[0], b[0], a[0]);
        LessIrreflexive(a[0]);
      }
      LessIrreflexive(a[0]);
      forall x ensures x in Elements(a[1..]) <==> x in Elements(b[1..]) {
        assert a == [a[0]] + a[1..] && b == [b[0]] + b[1..];
        assert x in a[1..] ==> Less(a[0], x);
        assert x in b[1..] ==> Less(b[0], x);
        assert x in Elements(a) <==> x in Elements(b);
      }
      SortedUnique(a[1..], b[1..]);
    }
  }

  lemma SortedFixed(s: seq<string>)
    requires StrictlySorted(s)
    ensures Sorted(s) == s
  {
    SortedIsSorted(s);
    SortedUnique(Sorted(s), s);
  }

  /** Sorting depends on the set of values only. */
  lemma SortedBySet(a: seq<string>, b: seq<string>)
    requires Elements(a) == Elements(b)
    ensures Sorted(a) == Sorted(b)
  {
    SortedIsSorted(a);
    SortedIsSorted(b);
    SortedUnique(Sorted(a), Sorted(b));
  }

  // ----- sorting a set ---------------------------------------------------

  predicate IsLeast(x: string, s: set<string>) {
    x in s && forall y :: y in s && y != x ==> Less(x, y)
  }

  lemma {:induction false} HasLeast(s: set<string>)
    requires s != {}
    ensures exists x :: IsLeast(x, s)
  {
    var x :| x in s;
    if s != {x} {
      HasLeast(s - {x});
      var m :| IsLeast(m, s - {x});
      LessTotal(x, m);
      if Less(x, m) {
        forall y | y in s && y != x ensures Less(x, y) {
          if y != m {
            LessTransitive(x, m, y);
          }
        }
        assert IsLeast(x, s);
      } else {
        assert IsLeast(m, s);
      }
    } else {
      assert IsLeast(x, s);
    }
  }

  lemma LeastIsUnique(x: string, y: string, s: set<string>)
    requires IsLeast(x, s) && IsLeast(y, s)
    ensures x == y
  {
    if x != y {
      LessTransitive(x, y, x);
      LessIrreflexive(x);
    }
  }

  /** sorted(s) */
  function SortedSet(s: set<string>): (r: seq<string>)
    ensures Elements(r) == s && StrictlySorted(r)
  {
    if s == {} then []
    else
      HasLeast(s);
      assert forall x, y :: IsLeast(x, s) && IsLeast(y, s) ==> x == y by {
        forall x, y | IsLeast(x, s) && IsLeast(y, s) ensures x == y { LeastIsUnique(x, y, s); }
      }
      var least :| IsLeast(least, s);
      var rest := SortedSet(s - {least});
      ElementsConcat([least], rest);
      assert forall i :: 0 <= i < |rest| ==> rest[i] in Elements(rest);
      [least] + rest
  }

  // ----- order-preserving deduplication ----------------------------------

  /** The values in order of first occurrence. */
  function Distinct(xs: seq<string>): seq<string> {
    if xs == [] then []
    else
      var r := Distinct(xs[..|xs| - 1]);
      if xs[|xs| - 1] in r then r else r + [xs[|xs| - 1]]
  }

  /** The same values as before, and no value twice. */
  lemma {:induction false} DistinctMembers(xs: seq<string>)
    ensures forall v :: v in Distinct(xs) <==> v in xs
    ensures Elements(Distinct(xs)) == Elements(xs)
    ensures forall i, j :: 0 <= i < j < |Distinct(xs)| ==> Distinct(xs)[i] != Distinct(xs)[j]
  {
    if xs != [] {
      DistinctMembers(xs[..|xs| - 1]);
      assert xs == xs[..|xs| - 1] + [xs[|xs| - 1]];
    }
  }

  lemma {:induction false} DistinctGrows(xs: seq<string>, i: nat)
    requires i <= |xs|
    ensures Distinct(xs[..i]) <= Distinct(xs)
  {
    if i < |xs| {
      DistinctGrows(xs[..|xs| - 1], i);
      assert xs[..|xs| - 1][..i] == xs[..i];
    } else {
      assert xs[..i] == xs;
    }
  }

  /** Once `n` distinct values are found, later ones change nothing. */
  lemma FullStays(a: seq<string>, b: seq<string>, n: nat)
    requires a <= b && |Distinct(a)| >= n
    ensures CapTo(Distinct(b), n) == CapTo(Distinct(a), n)
  {
    assert b[..|a|] == a;
    DistinctGrows(b, |a|);
  }

  lemma DistinctSnoc(xs: seq<string>, x: string)
    ensures Distinct(xs + [x]) == if x in Distinct(xs) then Distinct(xs) else Distinct(xs) + [x]
  {
    assert (xs + [x])[..|xs|] == xs;
  }

  /** A list without repetitions is unchanged. */
  lemma {:induction false} DistinctFixed(xs: seq<string>)
    requires forall i, j :: 0 <= i < j < |xs| ==> xs[i] != xs[j]
    ensures Distinct(xs) == xs
  {
    if xs != [] {
      DistinctFixed(xs[..|xs| - 1]);
      assert xs == xs[..|xs| - 1] + [xs[|xs| - 1]];
    }
  }

  // ----- collecting values -----------------------------------------------

  /** What `f` yields for each element, in order. */
  function Gather<T, U>(xs: seq<T>, f: T -> seq<U>): seq<U> {
    if xs == [] then [] else Gather(xs[..|xs| - 1], f) + f(xs[|xs| - 1])
  }

  lemma GatherSnoc<T, U>(xs: seq<T>, i: nat, f: T -> seq<U>)
    requires i < |xs|
    ensures Gather(xs[..i + 1], f) == Gather(xs[..i], f) + f(xs[i])
  {
    assert xs[..i + 1][..i] == xs[..i];
  }

  lemma GatherSingle<T, U>(x: T, f: T -> seq<U>)
    ensures Gather([x], f) == f(x)
  {
    assert [x][..0] == [];
    assert Gather([x][..0], f) + f(x) == f(x);
  }

  lemma {:induction false} GatherGrows<T, U>(xs: seq<T>, i: nat, f: T -> seq<U>)
    requires i <= |xs|
    ensures Gather(xs[..i], f) <= Gather(xs, f)
  {
    if i < |xs| {
      GatherGrows(xs[..|xs| - 1], i, f);
      assert xs[..|xs| - 1][..i] == xs[..i];
    } else {
      assert xs[..i] == xs;
    }
  }

  lemma {:induction false} GatherIn<T, U>(xs: seq<T>, f: T -> seq<U>, v: U)
    ensures v in Gather(xs, f) <==> exists x :: x in xs && v in f(x)
  {
    if xs != [] {
      GatherIn(xs[..|xs| - 1], f, v);
      assert xs == xs[..|xs| - 1] + [xs[|xs| - 1]];
    }
  }

  lemma {:induction false} GatherConcat<T, U>(a: seq<T>, b: seq<T>, f: T -> seq<U>)
    ensures Gather(a + b, f) == Gather(a, f) + Gather(b, f)
  {
    if b == [] {
      assert a + b == a;
    } else {
      var n := |b| - 1;
      GatherConcat(a, b[..n], f);
      assert (a + b)[..|a + b| - 1] == a + b[..n];
    }
  }

  lemma {:induction false} GatherSame<T, U>(xs: seq<T>, f: T -> seq<U>, g: T -> seq<U>)
    requires forall i :: 0 <= i < |xs| ==> f(xs[i]) == g(xs[i])
    ensures Gather(xs, f) == Gather(xs, g)
  {
    if xs != [] {
      GatherSame(xs[..|xs| - 1], f, g);
    }
  }

  lemma {:induction false} GatherSingletons<T, U>(xs: seq<T>, f: T -> seq<U>, vs: seq<U>)
    requires |xs| == |vs| && forall i :: 0 <= i < |xs| ==> f(xs[i]) == [vs[i]]
    ensures Gather(xs, f) == vs
  {
    if xs != [] {
      var n := |xs| - 1;
      GatherSingletons(xs[..n], f, vs[..n]);
      assert vs == vs[..n] + [vs[n]];
    }
  }

  /** Left to right, starting from `s`. */
  function Fold<S, T>(f: (S, T) -> S, s: S, xs: seq<T>): S {
    if xs == [] then s else f(Fold(f, s, xs[..|xs| - 1]), xs[|xs| - 1])
  }

  lemma {:induction false} FoldConcat<S, T>(f: (S, T) -> S, s: S, a: seq<T>, b: seq<T>)
    ensures Fold(f, Fold(f, s, a), b) == Fold(f, s, a + b)
  {
    if b == [] {
      assert a + b == a;
    } else {
      var n := |b| - 1;
      FoldConcat(f, s, a, b[..n]);
      assert (a + b)[..|a + b| - 1] == a + b[..n];
    }
  }

  /** One more element that yields at most one value. */
  lemma GatherStep<T>(xs: seq<T>, i: nat, f: T -> seq<string>)
    requires i < |xs| && |f(xs[i])| <= 1
    ensures var before := Distinct(Gather(xs[..i], f));
            Distinct(Gather(xs[..i + 1], f)) ==
            if f(xs[i]) == [] || f(xs[i])[0] in before then before else before + f(xs[i])
  {
    GatherSnoc(xs, i, f);
    var before := Gather(xs[..i], f);
    if f(xs[i]) != [] {
      assert f(xs[i]) == [f(xs[i])[0]];
      DistinctSnoc(before, f(xs[i])[0]);
    } else {
      assert before + [] == before;
    }
  }

  /** The distinct values that the first `i` elements yield. */
  predicate GatheredUpTo<T>(xs: seq<T>, f: T -> seq<string>, i: nat, found: seq<string>) {
    i <= |xs| && found == Distinct(Gather(xs[..i], f))
  }

  /** The list with the offered value, if any, unless it is there already. */
  function WithNew(found: seq<string>, value: seq<string>): seq<string> {
    if value == [] || value[0] in found then found else found + value
  }

  lemma GatheredOne<T>(xs: seq<T>, f: T -> seq<string>, i: nat, found: seq<string>)
    requires GatheredUpTo(xs, f, i, found) && i < |xs| && |f(xs[i])| <= 1
    ensures GatheredUpTo(xs, f, i + 1, WithNew(found, f(xs[i])))
  {
    GatherStep(xs, i, f);
  }

  lemma GatheredAll<T>(xs: seq<T>, f: T -> seq<string>, found: seq<string>)
    requires GatheredUpTo(xs, f, |xs|, found)
    ensures found == Distinct(Gather(xs, f))
  {
    assert xs[..|xs|] == xs;
  }

  lemma GatheredEnough<T>(xs: seq<T>, f: T -> seq<string>, i: nat, found: seq<string>, cap: nat)
    requires GatheredUpTo(xs, f, i, found) && |found| == cap
    ensures CapTo(Distinct(Gather(xs, f)), cap) == found
  {
    GatherCapped(xs, i, f, cap);
  }

  /** The loop that several planners share: the first `cap` distinct values, in order of appearance. */
  method CollectFirst<T>(xs: seq<T>, f: T -> seq<string>, cap: nat) returns (found: seq<string>)
    requires cap > 0 && forall i :: 0 <= i < |xs| ==> |f(xs[i])| <= 1
    ensures found == CapTo(Distinct(Gather(xs, f)), cap)
  {
    found := [];
    for i := 0 to |xs|
      invariant GatheredUpTo(xs, f, i, found) && |found| < cap
    {
      GatheredOne(xs, f, i, found);
      found := WithNew(found, f(xs[i]));
      if |found| >= cap {
        GatheredEnough(xs, f, i + 1, found, cap);
        return;
      }
    }
    GatheredAll(xs, f, found);
  }

  /** The same without a bound, tracking what was seen in a set. */
  method CollectAll<T>(xs: seq<T>, f: T -> seq<string>) returns (found: seq<string>)
    requires forall i :: 0 <= i < |xs| ==> |f(xs[i])| <= 1
    ensures found == Distinct(Gather(xs, f))
  {
    found := [];
    var seen: set<string> := {};
    for i := 0 to |xs|
      invariant GatheredUpTo(xs, f, i, found) && forall v :: v in seen <==> v in found
    {
      GatheredOne(xs, f, i, found);
      var value := f(xs[i]);
      if value != [] && value[0] !in seen {
        found := found + value;
        seen := seen + {value[0]};
      }
    }
    GatheredAll(xs, f, found);
  }

  lemma GatherStepAfter<T>(seen: seq<string>, xs: seq<T>, i: nat, f: T -> seq<string>)
    requires i < |xs| && |f(xs[i])| <= 1
    ensures var before := Distinct(seen + Gather(xs[..i], f));
            Distinct(seen + Gather(xs[..i + 1], f)) ==
            if f(xs[i]) == [] || f(xs[i])[0] in before then before else before + f(xs[i])
  {
    GatherSnoc(xs, i, f);
    var before := seen + Gather(xs[..i], f);
    assert seen + Gather(xs[..i + 1], f) == before + f(xs[i]);
    if f(xs[i]) != [] {
      assert f(xs[i]) == [f(xs[i])[0]];
      DistinctSnoc(before, f(xs[i])[0]);
    } else {
      assert before + [] == before;
    }
  }

  lemma GatherNext<T>(seen: seq<string>, xs: seq<T>, i: nat, f: T -> seq<string>)
    requires i < |xs|
    ensures seen + Gather(xs[..i + 1], f) == seen + Gather(xs[..i], f) + f(xs[i])
    ensures f(xs[i]) == [] ==> seen + Gather(xs[..i + 1], f) == seen + Gather(xs[..i], f)
  {
    GatherSnoc(xs, i, f);
  }

  lemma GatherFullAfter<T>(seen: seq<string>, xs: seq<T>, i: nat, f: T -> seq<string>, n: nat)
    requires i <= |xs| && |Distinct(seen + Gather(xs[..i], f))| >= n
    ensures CapTo(Distinct(seen + Gather(xs, f)), n) == CapTo(Distinct(seen + Gather(xs[..i], f)), n)
  {
    GatherGrows(xs, i, f);
    FullStays(seen + Gather(xs[..i], f), seen + Gather(xs, f), n);
  }

  /** A loop that stops at `n` distinct values has found the first `n`. */
  lemma GatherCapped<T>(xs: seq<T>, i: nat, f: T -> seq<string>, n: nat)
    requires i <= |xs| && |Distinct(Gather(xs[..i], f))| == n
    ensures CapTo(Distinct(Gather(xs, f)), n) == Distinct(Gather(xs[..i], f))
  {
    GatherGrows(xs, i, f);
    FullStays(Gather(xs[..i], f), Gather(xs, f), n);
  }
}
