/**
 DNS names: syntax (backend/services/scope_service.py) and label-aware descent
 (backend/services/subdomain_policy.py).
 */
module Hostnames {
  import opened Wrappers
  import opened Text

  const MAX_NAME := 253
  const MAX_LABEL := 63

  // ----- syntax ----------------------------------------------------------

  /** A label of section 2.1 of RFC 1123, lower case. */
  predicate ValidLabel(part: string) {
    && 1 <= |part| <= MAX_LABEL
    && IsAlnum(part[0]) && IsAlnum(part[|part| - 1])
    && forall c :: c in part ==> IsAlnum(c) || c == '-'
  }

  function Labels(name: string): seq<string> {
    Split(name, '.')
  }

  predicate ValidLabels(labels: seq<string>) {
    forall l :: l in labels ==> ValidLabel(l)
  }

  predicate IsName(name: string) {
    |name| <= MAX_NAME && ValidLabels(Labels(name))
  }

  /** `$` in the pattern also matches just before one final newline. */
  function Chomp(s: string): string {
    if EndsWith(s, "\n") then s[..|s| - 1] else s
  }

  predicate MatchesHostnameRe(s: string) {
    IsName(s) || IsName(Chomp(s))
  }

  predicate IsOctetShape(part: string) {
    1 <= |part| <= 3 && forall c :: c in part ==> IsDigit(c)
  }

  predicate IsDottedQuad(s: string) {
    |Labels(s)| == 4 && forall part :: part in Labels(s) ==> IsOctetShape(part)
  }

  predicate MatchesIPv4Re(s: string) {
    IsDottedQuad(s) || IsDottedQuad(Chomp(s))
  }

  /** The number a digit string denotes. */
  function DigitsValue(s: string): nat {
    if s == "" || !IsDigit(s[|s| - 1]) then 0
    else 10 * DigitsValue(s[..|s| - 1]) + (s[|s| - 1] as int - '0' as int)
  }

  /** What ipaddress accepts as an IPv4 literal: four octets, no leading zeros, at most 255. */
  predicate IsIPv4(s: string) {
    IsDottedQuad(s)
    && forall part :: part in Labels(s) ==> DigitsValue(part) <= 255 && (|part| > 1 ==> part[0] != '0')
  }

  function DropRootDot(v: string): string {
    if EndsWith(v, ".") then v[..|v| - 1] else v
  }

  /**
   _validate_domain; None stands for INVALID_TARGET. IP literals need no branch of their own:
   a valid IPv4 literal is a dotted quad and an IPv6 literal contains ':'.
   */
  function ValidateDomain(value: string): Option<string> {
    var v := Strip(value);
    if v == "" then None
    else if Contains(v, "://") then None
    else if '@' in v then None
    else if '*' in v then None
    else
      var bare := DropRootDot(v);
      if bare != "" && bare[0] == '-' then None
      else
        var lowered := Lower(bare);
        if MatchesIPv4Re(bare) then None
        else if lowered == "" || |lowered| > MAX_NAME || !MatchesHostnameRe(lowered) then None
        else Some(lowered)
  }

  function NormalizeHostname(value: string): Option<string> {
    if ValidateDomain(value).None? then None else Some(Lower(DropRootDot(Strip(value))))
  }

  predicate IsWithinDomain(candidate: string, domain: string) {
    var child := NormalizeHostname(candidate);
    var parent := NormalizeHostname(domain);
    child.Some? && parent.Some?
    && (child.value == parent.value || EndsWith(child.value, "." + parent.value))
  }

  predicate DescendsFrom(name: string, parents: seq<string>) {
    exists p :: p in parents && IsWithinDomain(name, p)
  }

  // ----- facts about names -----------------------------------------------

  predicate OccursIn(c: char, parts: seq<string>) {
    exists i :: 0 <= i < |parts| && c in parts[i]
  }

  lemma PrependChars(h: char, rest: seq<string>, sep: char, c: char)
    requires |rest| >= 1 && ((h == c && c != sep) || OccursIn(c, rest))
    ensures OccursIn(c, Prepend(h, rest, sep))
  {
    var parts := Prepend(h, rest, sep);
    if h == c && c != sep {
      assert c in parts[0];
    } else {
      var i :| 0 <= i < |rest| && c in rest[i];
      if h == sep {
        assert parts[i + 1] == rest[i];
      } else if i == 0 {
        assert parts[0] == [h] + rest[0];
      } else {
        assert parts[i] == rest[i];
      }
    }
  }

  lemma {:induction false} SplitOccurs(s: string, sep: char, c: char)
    requires c in s && c != sep
    ensures OccursIn(c, Split(s, sep))
  {
    assert s == [s[0]] + s[1..];
    if c != s[0] {
      SplitOccurs(s[1..], sep, c);
    }
    PrependChars(s[0], Split(s[1..], sep), sep, c);
  }

  lemma SplitChars(s: string, sep: char, c: char)
    requires c in s && c != sep
    ensures exists part :: part in Split(s, sep) && c in part
  {
    SplitOccurs(s, sep, c);
    var i :| 0 <= i < |Split(s, sep)| && c in Split(s, sep)[i];
    assert Split(s, sep)[i] in Split(s, sep);
  }

  lemma {:induction false} SplitEnds(s: string, sep: char)
    ensures s != "" && s[0] != sep ==> Split(s, sep)[0] != "" && Split(s, sep)[0][0] == s[0]
    ensures s != "" && s[|s| - 1] != sep ==>
              var last := Split(s, sep)[|Split(s, sep)| - 1]; last != "" && last[|last| - 1] == s[|s| - 1]
    ensures s == "" || s[|s| - 1] == sep ==> Split(s, sep)[|Split(s, sep)| - 1] == ""
    ensures s == "" || s[0] == sep ==> Split(s, sep)[0] == ""
  {
    if s != "" {
      SplitEnds(s[1..], sep);
    }
  }

  lemma {:induction false} SplitWithout(s: string, sep: char)
    requires sep !in s
    ensures Split(s, sep) == [s]
  {
    if s != "" {
      SplitWithout(s[1..], sep);
      assert s == [s[0]] + s[1..];
    }
  }

  /** The characters a name is made of, and what it begins and ends with. */
  lemma NameChars(name: string)
    requires IsName(name)
    ensures name != "" && IsAlnum(name[0]) && IsAlnum(name[|name| - 1])
    ensures forall c :: c in name ==> IsAlnum(c) || c == '-' || c == '.'
  {
    SplitEnds(name, '.');
    assert Labels(name)[0] in Labels(name);
    assert Labels(name)[|Labels(name)| - 1] in Labels(name);
    forall c | c in name ensures IsAlnum(c) || c == '-' || c == '.' {
      if c != '.' {
        SplitChars(name, '.', c);
      }
    }
  }

  lemma NameLowered(name: string)
    requires IsName(name)
    ensures Lower(name) == name
  {
    NameChars(name);
    LowerFixed(name);
  }

  /** Text that begins and ends with a letter or a digit is left by every trimming. */
  lemma EndsKept(name: string)
    requires name != "" && IsAlnum(name[0]) && IsAlnum(name[|name| - 1])
    ensures Strip(name) == name && Chomp(name) == name && DropRootDot(name) == name
  {
  }

  lemma LacksSeparators(name: string)
    requires forall c :: c in name ==> IsAlnum(c) || c == '-' || c == '.'
    ensures '@' !in name && '*' !in name && '\n' !in name && ':' !in name && !Contains(name, "://")
  {
    if Contains(name, "://") {
      ContainsChars(name, "://", ':');
    }
  }

  /** A name is in normal form and holds no separator. */
  lemma NameIsPlain(name: string)
    requires IsName(name)
    ensures Strip(name) == name && Chomp(name) == name && DropRootDot(name) == name && Lower(name) == name
    ensures '@' !in name && '*' !in name && '\n' !in name && ':' !in name && !Contains(name, "://")
  {
    NameChars(name);
    NameLowered(name);
    EndsKept(name);
    LacksSeparators(name);
  }

  /** A name that is no dotted quad is its own normal form. */
  lemma NamesAreFixed(name: string)
    requires IsName(name) && !IsDottedQuad(name)
    ensures NormalizeHostname(name) == Some(name)
  {
    NameIsPlain(name);
    NameChars(name);
  }

  lemma StripNewline(name: string)
    requires IsName(name)
    ensures Strip(name + "\n") == name
  {
    NameChars(name);
    NameIsPlain(name);
    var s := name + "\n";
    assert s[..|s| - 1] == name;
  }

  lemma LowerKeepsDottedQuad(v: string)
    requires IsDottedQuad(Lower(v))
    ensures Lower(v) == v
  {
    forall i | 0 <= i < |v| ensures LowerChar(v[i]) == v[i] {
      var c := Lower(v)[i];
      if c != '.' {
        SplitChars(Lower(v), '.', c);
      }
    }
  }

  /**
   A normal form is a name, or, when the input had a newline before its root dot, a name
   followed by that newline.
   */
  lemma NormalForm(value: string, n: string)
    requires NormalizeHostname(value) == Some(n)
    ensures IsName(Chomp(n)) && !IsDottedQuad(Chomp(n))
    ensures '\n' !in Strip(value) <==> n == Chomp(n)
    ensures n == Chomp(n) || n == Chomp(n) + "\n"
  {
    var bare := DropRootDot(Strip(value));
    NormalFormOf(value, n);
    LoweredName(bare);
    ChompEnds(n);
    NewlineKept(Strip(value));
  }

  /** What validation establishes about the text before it is lowered. */
  lemma NormalFormOf(value: string, n: string)
    requires NormalizeHostname(value) == Some(n)
    ensures var bare := DropRootDot(Strip(value));
            n == Lower(bare) && MatchesHostnameRe(Lower(bare)) && !MatchesIPv4Re(bare)
  {
  }

  lemma ChompLower(s: string)
    ensures Chomp(Lower(s)) == Lower(Chomp(s))
  {
    if s != "" {
      assert s[|s| - 1..] == [s[|s| - 1]] && Lower(s)[|s| - 1..] == [Lower(s)[|s| - 1]];
    }
  }

  lemma LoweredName(bare: string)
    requires MatchesHostnameRe(Lower(bare)) && !MatchesIPv4Re(bare)
    ensures IsName(Chomp(Lower(bare))) && !IsDottedQuad(Chomp(Lower(bare)))
  {
    if IsName(Lower(bare)) {
      NameIsPlain(Lower(bare));
    }
    ChompLower(bare);
    if IsDottedQuad(Chomp(Lower(bare))) {
      LowerKeepsDottedQuad(Chomp(bare));
    }
  }

  /** A text whose chomped form is a name has no newline but, perhaps, its last character. */
  lemma ChompEnds(n: string)
    requires IsName(Chomp(n))
    ensures n == Chomp(n) || n == Chomp(n) + "\n"
    ensures '\n' !in n <==> n == Chomp(n)
  {
    NameIsPlain(Chomp(n));
    if n != Chomp(n) {
      assert n[|n| - 1..] == "\n" && n == n[..|n| - 1] + n[|n| - 1..];
      assert n[|n| - 1] == '\n';
    }
  }

  lemma NewlineKept(v: string)
    ensures '\n' in v <==> '\n' in Lower(DropRootDot(v))
  {
    var bare := DropRootDot(v);
    assert bare == v || v == bare + ".";
    assert forall i :: 0 <= i < |bare| ==> (bare[i] == '\n' <==> Lower(bare)[i] == '\n');
  }

  /**
   Normalization is idempotent exactly on inputs without an inner newline: the pattern's `$`
   lets "a<newline>." through as "a<newline>", which a second pass strips to "a".
   */
  lemma NormalizeIdempotentIff(value: string, n: string)
    requires NormalizeHostname(value) == Some(n)
    ensures NormalizeHostname(n) == Some(n) <==> '\n' !in Strip(value)
    ensures NormalizeHostname(n) == Some(Chomp(n))
  {
    NormalForm(value, n);
    NamesAreFixed(Chomp(n));
    if n != Chomp(n) {
      StripNewline(Chomp(n));
      NameIsPlain(Chomp(n));
    }
  }

  lemma NormalizeNotIdempotent()
    ensures NormalizeHostname("a\n.") == Some("a\n") && NormalizeHostname("a\n") == Some("a")
  {
    SplitWithout("a", '.');
    assert IsName("a");
    assert Chomp("a\n") == "a";
    assert DropRootDot("a\n.") == "a\n" && Strip("a\n.") == "a\n.";
    assert Lower("a\n") == "a\n";
    assert !Contains("a\n.", "://");
    SplitWithout("a\n", '.');
    NormalizeIdempotentIff("a\n.", "a\n");
  }

  // ----- descent ---------------------------------------------------------

  /** `inner` is the tail of `outer`, label for label. */
  predicate LabelSuffix(inner: seq<string>, outer: seq<string>) {
    |inner| <= |outer| && outer[|outer| - |inner|..] == inner
  }

  lemma SuffixIffLabelSuffix(c: string, d: string)
    ensures c == d || EndsWith(c, "." + d) <==> LabelSuffix(Labels(d), Labels(c))
  {
    var inner, outer := Labels(d), Labels(c);
    if EndsWith(c, "." + d) {
      var x := c[..|c| - |d| - 1];
      assert c == x + ['.'] + d;
      SplitConcat(x, d, '.');
      assert LabelSuffix(inner, outer);
    }
    if LabelSuffix(inner, outer) {
      var k := |outer| - |inner|;
      JoinSplit(c, '.');
      JoinSplit(d, '.');
      if k == 0 {
        assert inner == outer;
      } else {
        assert outer == outer[..k] + outer[k..];
        JoinConcat(outer[..k], outer[k..], '.');
        var x := Join(outer[..k], '.');
        assert c == x + "." + d;
        assert c[|x|..] == "." + d;
      }
    }
  }

  /** On normal forms, string-suffix descent is exactly label-suffix descent. */
  lemma DescentIsLabelSuffix(c: string, d: string)
    requires NormalizeHostname(c) == Some(c) && NormalizeHostname(d) == Some(d)
    ensures IsWithinDomain(c, d) <==> LabelSuffix(Labels(d), Labels(c))
  {
    SuffixIffLabelSuffix(c, d);
  }

  lemma LabelSuffixOrder(a: seq<string>, b: seq<string>, c: seq<string>)
    ensures LabelSuffix(a, a)
    ensures LabelSuffix(a, b) && LabelSuffix(b, a) ==> a == b
    ensures LabelSuffix(a, b) && LabelSuffix(b, c) ==> LabelSuffix(a, c)
  {
    if LabelSuffix(a, b) && LabelSuffix(b, c) {
      assert c[|c| - |a|..] == c[|c| - |b|..][|b| - |a|..];
    }
  }

  /** Descent is a partial order on normal forms. */
  lemma DescentIsPartialOrder(a: string, b: string, c: string)
    requires NormalizeHostname(a) == Some(a) && NormalizeHostname(b) == Some(b) && NormalizeHostname(c) == Some(c)
    ensures IsWithinDomain(a, a)
    ensures IsWithinDomain(a, b) && IsWithinDomain(b, a) ==> a == b
    ensures IsWithinDomain(a, b) && IsWithinDomain(b, c) ==> IsWithinDomain(a, c)
  {
    SuffixIffLabelSuffix(a, b);
    SuffixIffLabelSuffix(b, a);
    SuffixIffLabelSuffix(b, c);
    SuffixIffLabelSuffix(a, c);
    LabelSuffixOrder(Labels(c), Labels(b), Labels(a));
    LabelSuffixOrder(Labels(a), Labels(b), Labels(a));
    JoinSplit(a, '.');
    JoinSplit(b, '.');
  }

  /** Descent only looks at the normal forms of its arguments. */
  lemma DescentOfNormalForms(candidate: string, domain: string, c: string, d: string)
    requires NormalizeHostname(candidate) == Some(c) && NormalizeHostname(domain) == Some(d)
    requires '\n' !in Strip(candidate) && '\n' !in Strip(domain)
    ensures IsWithinDomain(candidate, domain) <==> IsWithinDomain(c, d)
  {
    NormalizeIdempotentIff(candidate, c);
    NormalizeIdempotentIff(domain, d);
  }
}
