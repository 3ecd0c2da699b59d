/**
 What the text functions under names and targets mean: trimming, decimal numbers, labels, host
 names, IPv4 literals, and the host of a URL.
 */
module TargetTexts {
  import opened Wrappers
  import opened Text
  import opened Hostnames
  import opened Targets

  // ----- trimming and numbers --------------------------------------------

  predicate Blank(s: string) {
    forall c :: c in s ==> c in " \t\n\r\U{B}\U{C}\U{1C}\U{1D}\U{1E}\U{1F}"
  }

  lemma SpaceMeans(c: char)
    ensures IsSpace(c) <==> Blank([c])
  {
    assert c in [c];
  }

  lemma BlankJoined(a: string, b: string)
    requires Blank(a) && Blank(b)
    ensures Blank(a + b)
  {
  }

  /** Stripping takes blanks from both ends, and nothing else. */
  lemma {:induction false} StripMeans(s: string) returns (left: string, right: string)
    ensures s == left + Strip(s) + right && Blank(left) && Blank(right)
  {
    if s == "" {
      left, right := "", "";
    } else if IsSpace(s[0]) {
      var l, r := StripMeans(s[1..]);
      SpaceMeans(s[0]);
      BlankJoined([s[0]], l);
      left, right := [s[0]] + l, r;
      assert s == [s[0]] + s[1..];
    } else if IsSpace(s[|s| - 1]) {
      var l, r := StripMeans(s[..|s| - 1]);
      SpaceMeans(s[|s| - 1]);
      BlankJoined(r, [s[|s| - 1]]);
      left, right := l, r + [s[|s| - 1]];
      assert s == s[..|s| - 1] + [s[|s| - 1]];
    } else {
      left, right := "", "";
    }
  }

  /** Lower case changes the letters A to Z, each to its own small letter, and nothing else. */
  lemma LowerMeans(c: char)
    ensures 'A' <= c <= 'Z' ==> 'a' <= LowerChar(c) <= 'z' && LowerChar(c) as int - 'a' as int == c as int - 'A' as int
    ensures !('A' <= c <= 'Z') ==> LowerChar(c) == c
  {
  }

  /** The texts agree up to `k`, where the first ends or has the smaller character. */
  ghost predicate SmallerAt(a: string, b: string, k: nat) {
    k <= |a| && k < |b| && a[..k] == b[..k] && (k == |a| || a[k] < b[k])
  }

  /** The order of sorted lists: by the first difference, a proper prefix first. */
  lemma {:induction false} LessMeans(a: string, b: string)
    ensures Less(a, b) <==> exists k :: 0 <= k <= |a| && SmallerAt(a, b, k)
  {
    if Less(a, b) {
      var k := FirstDifference(a, b);
    }
    if k: nat :| k <= |a| && SmallerAt(a, b, k) {
      SmallerIsLess(a, b, k);
    }
  }

  lemma {:induction false} FirstDifference(a: string, b: string) returns (k: nat)
    requires Less(a, b)
    ensures SmallerAt(a, b, k)
  {
    if a == "" || a[0] != b[0] {
      k := 0;
    } else {
      var j := FirstDifference(a[1..], b[1..]);
      k := j + 1;
      assert a[..k] == [a[0]] + a[1..][..j] && b[..k] == [b[0]] + b[1..][..j];
    }
  }

  lemma {:induction false} SmallerIsLess(a: string, b: string, k: nat)
    requires SmallerAt(a, b, k)
    ensures Less(a, b)
  {
    if k > 0 {
      assert a[0] == a[..k][0] && b[0] == b[..k][0];
      assert a[1..][..k - 1] == a[..k][1..] && b[1..][..k - 1] == b[..k][1..];
      SmallerIsLess(a[1..], b[1..], k - 1);
    }
  }

  /** Decimal text reads back as its number. */
  lemma {:induction false} DigitsReadBack(n: nat)
    ensures DigitsValue(Digits(n)) == n
    ensures Digits(n) != "" && (forall c :: c in Digits(n) ==> IsDigit(c)) && (n > 0 ==> Digits(n)[0] != '0')
  {
    if n >= 10 {
      DigitsReadBack(n / 10);
      assert Digits(n)[..|Digits(n)| - 1] == Digits(n / 10);
    }
  }

  /** And a number without leading zeros is the text of its value. */
  lemma {:induction false} ValueReadBack(s: string)
    requires s != "" && (forall c :: c in s ==> IsDigit(c)) && (|s| > 1 ==> s[0] != '0')
    ensures Digits(DigitsValue(s)) == s
  {
    var front, last := s[..|s| - 1], s[|s| - 1];
    assert s == front + [last];
    assert last in s;
    if front == "" {
      assert DigitsValue(front) == 0;
    } else {
      ValueReadBack(front);
      FrontPositive(front);
      assert forall c :: c in front ==> c in s;
    }
  }

  lemma {:induction false} FrontPositive(s: string)
    requires s != "" && (forall c :: c in s ==> IsDigit(c)) && s[0] != '0'
    ensures DigitsValue(s) > 0
  {
    assert s[|s| - 1] in s && s[0] in s;
    if |s| > 1 {
      assert forall c :: c in s[..|s| - 1] ==> c in s;
      FrontPositive(s[..|s| - 1]);
    } else {
      assert s[..0] == "";
    }
  }

  // ----- names -----------------------------------------------------------

  /** A label: 1 to 63 lower-case letters, digits and hyphens, with no hyphen at either end. */
  lemma LabelMeans(part: string)
    ensures ValidLabel(part) <==>
              && 1 <= |part| <= 63 && part[0] != '-' && part[|part| - 1] != '-'
              && forall c :: c in part ==> 'a' <= c <= 'z' || '0' <= c <= '9' || c == '-'
  {
    if part != "" {
      assert part[0] in part && part[|part| - 1] in part;
    }
  }

  /** At most 253 characters of labels between dots. */
  lemma NameMeans(name: string)
    ensures IsName(name) <==>
              |name| <= 253 && forall i :: 0 <= i < |Split(name, '.')| ==> ValidLabel(Split(name, '.')[i])
    ensures Join(Split(name, '.'), '.') == name
  {
    JoinSplit(name, '.');
    if forall i :: 0 <= i < |Split(name, '.')| ==> ValidLabel(Split(name, '.')[i]) {
      forall l | l in Labels(name) ensures ValidLabel(l) {
        var i :| 0 <= i < |Labels(name)| && Labels(name)[i] == l;
      }
    }
    if IsName(name) {
      forall i | 0 <= i < |Split(name, '.')| ensures ValidLabel(Split(name, '.')[i]) {
        assert Split(name, '.')[i] in Labels(name);
      }
    }
  }

  function WithoutDot(t: string): string {
    if t != "" && t[|t| - 1] == '.' then t[..|t| - 1] else t
  }

  lemma WithoutDotMeans(t: string)
    ensures DropRootDot(t) == WithoutDot(t)
  {
    if t != "" {
      assert t[|t| - 1..] == [t[|t| - 1]];
    }
  }

  /** What the text without its root dot must be like: a name in any case that is no dotted quad. */
  predicate NameShaped(bare: string) {
    |bare| <= 253 && (IsName(Lower(bare)) || IsName(Chomp(Lower(bare)))) && !IsDottedQuad(bare) && !IsDottedQuad(Chomp(bare))
  }

  /** Whatever is name-shaped holds none of the characters that are checked for first. */
  lemma ShapedIsPlain(t: string)
    requires NameShaped(WithoutDot(t))
    ensures t != "" && !Contains(t, "://") && '@' !in t && '*' !in t && WithoutDot(t) != "" && WithoutDot(t)[0] != '-'
  {
    var bare := WithoutDot(t);
    LooseNameChars(Lower(bare));
    assert Lower(bare)[0] == LowerChar(bare[0]);
    LoweredLacks(bare);
    assert t == bare || t == bare + ".";
    NoMark(t);
  }

  /** Characters that are no letters survive lowering. */
  lemma LoweredLacks(bare: string)
    requires forall c :: c in Lower(bare) ==> IsAlnum(c) || c == '-' || c == '.' || c == '\n'
    ensures '@' !in bare && '*' !in bare && ':' !in bare
  {
    forall i | 0 <= i < |bare| ensures bare[i] != '@' && bare[i] != '*' && bare[i] != ':' {
      assert Lower(bare)[i] in Lower(bare);
    }
  }

  lemma NoMark(t: string)
    ensures ':' !in t ==> !Contains(t, "://")
  {
    if Contains(t, "://") {
      ContainsChars(t, "://", ':');
    }
  }

  /** The characters of a name, with or without a final newline. */
  lemma LooseNameChars(low: string)
    requires IsName(low) || IsName(Chomp(low))
    ensures low != "" && IsAlnum(low[0]) && forall c :: c in low ==> IsAlnum(c) || c == '-' || c == '.' || c == '\n'
  {
    var name := if IsName(low) then low else Chomp(low);
    NameChars(name);
    if low != name {
      assert low[|low| - 1..] == "\n" && low == name + low[|low| - 1..];
    }
  }

  /** Normalizing a host name: exactly name-shaped text has a normal form, and it is the text in lower case. */
  lemma NormalizeMeans(value: string)
    ensures var bare := WithoutDot(Strip(value));
            NormalizeHostname(value) == if NameShaped(bare) then Some(Lower(bare)) else None
  {
    var t := Strip(value);
    WithoutDotMeans(t);
    if NameShaped(WithoutDot(t)) {
      ShapedIsPlain(t);
    }
  }

  // ----- IPv4 literals ---------------------------------------------------

  ghost predicate DottedDecimal(s: string, a: nat, b: nat, c: nat, d: nat) {
    a <= 255 && b <= 255 && c <= 255 && d <= 255 && s == Digits(a) + "." + Digits(b) + "." + Digits(c) + "." + Digits(d)
  }

  lemma OctetText(n: nat)
    requires n <= 255
    ensures 1 <= |Digits(n)| <= 3 && IsOctetShape(Digits(n)) && '.' !in Digits(n)
    ensures |Digits(n)| > 1 ==> Digits(n)[0] != '0'
  {
    DigitsReadBack(n);
    if n >= 10 {
      assert |Digits(n / 10)| <= 2 by {
        if n / 10 >= 10 {
          assert |Digits(n / 100)| == 1;
        }
      }
    }
  }

  lemma FourParts(a: string, b: string, c: string, d: string)
    requires '.' !in a && '.' !in b && '.' !in c && '.' !in d
    ensures Split(a + "." + b + "." + c + "." + d, '.') == [a, b, c, d]
    ensures Join([a, b, c, d], '.') == a + "." + b + "." + c + "." + d
  {
    SplitWithout(a, '.');
    SplitWithout(b, '.');
    SplitWithout(c, '.');
    SplitWithout(d, '.');
    SplitConcat(a + "." + b + "." + c, d, '.');
    SplitConcat(a + "." + b, c, '.');
    SplitConcat(a, b, '.');
    JoinSplit(a + "." + b + "." + c + "." + d, '.');
  }

  /** An IPv4 literal is four numbers up to 255 in plain decimal, between dots. */
  lemma IPv4Iff(s: string)
    ensures IsIPv4(s) <==> exists a: nat, b: nat, c: nat, d: nat :: DottedDecimal(s, a, b, c, d)
  {
    if IsIPv4(s) {
      var parts := Labels(s);
      forall i | 0 <= i < 4
        ensures IsOctetShape(parts[i]) && DigitsValue(parts[i]) <= 255 && Digits(DigitsValue(parts[i])) == parts[i]
      {
        assert parts[i] in parts;
        ValueReadBack(parts[i]);
      }
      JoinSplit(s, '.');
      assert parts == [parts[0], parts[1], parts[2], parts[3]];
      forall i | 0 <= i < 4 ensures '.' !in parts[i] {
        OctetText(DigitsValue(parts[i]));
      }
      FourParts(parts[0], parts[1], parts[2], parts[3]);
      assert DottedDecimal(s, DigitsValue(parts[0]), DigitsValue(parts[1]), DigitsValue(parts[2]), DigitsValue(parts[3]));
    }
    if a: nat, b: nat, c: nat, d: nat :| DottedDecimal(s, a, b, c, d) {
      DecimalIsIPv4(s, a, b, c, d);
    }
  }

  lemma DecimalIsIPv4(s: string, a: nat, b: nat, c: nat, d: nat)
    requires DottedDecimal(s, a, b, c, d)
    ensures IsIPv4(s)
  {
    OctetText(a);
    OctetText(b);
    OctetText(c);
    OctetText(d);
    DigitsReadBack(a);
    DigitsReadBack(b);
    DigitsReadBack(c);
    DigitsReadBack(d);
    FourParts(Digits(a), Digits(b), Digits(c), Digits(d));
    assert Labels(s) == [Digits(a), Digits(b), Digits(c), Digits(d)];
  }

  // ----- targets ---------------------------------------------------------

  /** A target that is no URL is compared as it stands, but for padding and letter case. */
  lemma PlainTargetMeans(target: string)
    requires !Contains(Strip(target), "://")
    ensures NormalizeTarget(target) == Lower(Strip(target))
  {
  }

  lemma LettersAreScheme(scheme: string)
    requires scheme != "" && forall c :: c in scheme ==> 'a' <= c <= 'z'
    ensures IsScheme(scheme) && Avoids(scheme, REMOVED + {':'}) && Avoids(scheme, {':'}) && scheme[0] > ' '
  {
    assert scheme[0] in scheme;
    forall i | 0 <= i < |scheme| ensures scheme[i] !in REMOVED + {':'} {
      assert scheme[i] in scheme;
    }
    forall c | c in scheme ensures IsSchemeChar(c) {
    }
  }

  lemma {:induction false} AfterLastAt(user: string, rest: string)
    requires '@' !in rest && (user == "" || user[|user| - 1] == '@')
    ensures AfterLast(user + rest, '@') == rest
  {
    if user == "" {
      assert user + rest == rest;
    } else {
      assert (user + rest)[|user| - 1] == '@';
      assert (user + rest)[1..] == user[1..] + rest;
      AfterLastAt(user[1..], rest);
    }
  }

  lemma AvoidsJoined(a: string, b: string, stops: set<char>)
    requires Avoids(a, stops) && Avoids(b, stops)
    ensures Avoids(a + b, stops)
  {
  }

  lemma SplitParts(scheme: string, netloc: string, rest: string)
    requires IsScheme(scheme) && Avoids(scheme, {':'})
    requires Avoids(netloc, {'/', '?', '#'}) && (rest == "" || rest[0] in {'/', '?', '#'})
    requires var s := scheme + "://" + netloc + rest; WithoutTabsAndNewlines(WithoutLeadingControls(s)) == s
    ensures UrlSplit(scheme + "://" + netloc + rest).netloc == netloc
  {
    var tail := "//" + netloc + rest;
    assert scheme + "://" + netloc + rest == scheme + (":" + tail);
    TailOf(scheme, tail);
    NetlocOf(netloc, rest);
    CleanSplit(scheme + "://" + netloc + rest);
  }

  lemma CleanSplit(s: string)
    requires WithoutTabsAndNewlines(WithoutLeadingControls(s)) == s
    ensures UrlSplit(s).netloc == Netloc(AfterScheme(s))
  {
  }

  lemma TailOf(scheme: string, tail: string)
    requires IsScheme(scheme) && Avoids(scheme, {':'})
    ensures AfterScheme(scheme + (":" + tail)) == tail
  {
    UntilSplits(scheme, ":" + tail, {':'});
    assert (scheme + (":" + tail))[|scheme| + 1..] == tail;
  }

  lemma NetlocOf(netloc: string, rest: string)
    requires Avoids(netloc, {'/', '?', '#'}) && (rest == "" || rest[0] in {'/', '?', '#'})
    ensures Netloc("//" + netloc + rest) == netloc
  {
    assert ("//" + netloc + rest)[2..] == netloc + rest;
    UntilSplits(netloc, rest, {'/', '?', '#'});
  }

  lemma CleanText(scheme: string, netloc: string, rest: string)
    requires scheme != "" && scheme[0] > ' '
    requires Avoids(scheme, REMOVED) && Avoids(netloc, REMOVED) && Avoids(rest, REMOVED)
    ensures var s := scheme + "://" + netloc + rest; WithoutTabsAndNewlines(WithoutLeadingControls(s)) == s
  {
    var s := scheme + "://" + netloc + rest;
    assert s[0] == scheme[0];
    assert Avoids("://", REMOVED);
    AvoidsJoined(scheme, "://", REMOVED);
    AvoidsJoined(scheme + "://", netloc, REMOVED);
    AvoidsJoined(scheme + "://" + netloc, rest, REMOVED);
    CleanUrl(s);
  }

  lemma FewerStops(s: string, stops: set<char>, fewer: set<char>)
    requires Avoids(s, stops) && fewer <= stops
    ensures Avoids(s, fewer)
  {
  }

  lemma NetlocAvoids(user: string, host: string, port: string, stops: set<char>)
    requires Avoids(user, stops) && Avoids(host, stops) && Avoids(port, stops)
    ensures Avoids(user + host + port, stops)
  {
    AvoidsJoined(user, host, stops);
    AvoidsJoined(user + host, port, stops);
  }

  lemma HostOf(scheme: string, user: string, host: string, port: string, rest: string)
    requires host != "" && Avoids(host, {'@', ':'}) && '@' !in port
    requires (user == "" || user[|user| - 1] == '@') && (port == "" || port[0] == ':')
    ensures UrlHostname(Url(scheme, user + host + port, rest)) == Some(Lower(host))
  {
    assert user + host + port == user + (host + port);
    assert '@' !in host + port;
    AfterLastAt(user, host + port);
    UntilSplits(host, port, {':'});
  }

  lemma HasMark(scheme: string, after: string)
    ensures Contains(scheme + "://" + after, "://")
  {
    var s := scheme + "://" + after;
    assert s[|scheme|..|scheme| + 3] == "://";
    assert OccursAt(s, "://", |scheme|);
  }

  lemma TargetOfUrl(scheme: string, netloc: string, rest: string)
    requires scheme != "" && forall c :: c in scheme ==> 'a' <= c <= 'z'
    requires Avoids(netloc, REMOVED + {'/', '?', '#'}) && Avoids(rest, REMOVED)
    requires rest == "" || rest[0] in {'/', '?', '#'}
    requires Stripped(scheme + "://" + netloc + rest)
    ensures var url := UrlSplit(scheme + "://" + netloc + rest);
            && url.netloc == netloc
            && (UrlHostname(url).Some? ==> NormalizeTarget(scheme + "://" + netloc + rest) == UrlHostname(url).value)
  {
    LettersAreScheme(scheme);
    FewerStops(scheme, REMOVED + {':'}, REMOVED);
    FewerStops(netloc, REMOVED + {'/', '?', '#'}, REMOVED);
    CleanText(scheme, netloc, rest);
    StripFixed(scheme + "://" + netloc + rest);
    HasMark(scheme, netloc + rest);
    assert scheme + "://" + netloc + rest == scheme + "://" + (netloc + rest);
    SplitParts(scheme, netloc, rest);
  }

  /** A URL means its host in lower case: scheme, user, port, path and query play no part. */
  lemma UrlTargetMeans(scheme: string, user: string, host: string, port: string, rest: string)
    requires scheme != "" && forall c :: c in scheme ==> 'a' <= c <= 'z'
    requires user == "" || user[|user| - 1] == '@'
    requires host != "" && Avoids(host, {'@', ':'})
    requires port == "" || port[0] == ':'
    requires '@' !in port && (rest == "" || rest[0] in {'/', '?', '#'})
    requires Avoids(user, REMOVED + {'/', '?', '#'}) && Avoids(host, REMOVED + {'/', '?', '#'})
    requires Avoids(port, REMOVED + {'/', '?', '#'}) && Avoids(rest, REMOVED)
    requires Stripped(scheme + "://" + (user + host + port) + rest)
    ensures NormalizeTarget(scheme + "://" + (user + host + port) + rest) == Lower(host)
  {
    NetlocAvoids(user, host, port, REMOVED + {'/', '?', '#'});
    TargetOfUrl(scheme, user + host + port, rest);
    var url := UrlSplit(scheme + "://" + (user + host + port) + rest);
    HostOf(url.scheme, user, host, port, url.rest);
    assert url == Url(url.scheme, user + host + port, url.rest);
  }

  // ----- the allowlist ---------------------------------------------------

  /** The host form of a host, URL or domain entry; a CIDR entry authorizes nothing. */
  ghost predicate InSnapshot(snapshot: seq<ScopeEntry>, host: string) {
    && host != ""
    && (exists v :: NormalizeTarget(v) == host
                    && (Entry(HostEntry, v) in snapshot || Entry(UrlEntry, v) in snapshot || Entry(DomainEntry, v) in snapshot))
  }

  lemma SnapshotHostMeans(snapshot: seq<ScopeEntry>, host: string)
    ensures IsSnapshotHost(snapshot, NAMED, host) <==> InSnapshot(snapshot, host)
  {
    if e :| host != "" && e in snapshot && HasKind(e, NAMED) && NormalizeTarget(e.value) == host {
      assert e == Entry(e.kind, e.value);
      assert Entry(HostEntry, e.value) in snapshot || Entry(UrlEntry, e.value) in snapshot || Entry(DomainEntry, e.value) in snapshot;
    }
    if v :| host != "" && NormalizeTarget(v) == host
            && (Entry(HostEntry, v) in snapshot || Entry(UrlEntry, v) in snapshot || Entry(DomainEntry, v) in snapshot) {
      assert HasKind(Entry(HostEntry, v), NAMED) && HasKind(Entry(UrlEntry, v), NAMED) && HasKind(Entry(DomainEntry, v), NAMED);
    }
  }

  /** What a scan may reach: hosts of its snapshot, and what a name among them resolves to. */
  lemma AuthorizedMeans(snapshot: seq<ScopeEntry>, dns: Resolver, target: string)
    ensures Authorized(snapshot, dns, target) <==>
              || InSnapshot(snapshot, target)
              || exists name :: InSnapshot(snapshot, name) && !dns.isIp(name) && target in dns.lookup(name)
  {
    forall host ensures IsSnapshotHost(snapshot, NAMED, host) <==> InSnapshot(snapshot, host) {
      SnapshotHostMeans(snapshot, host);
    }
  }

  /** Parents are the names of host and domain entries, and the hosts of URL entries that are names. */
  lemma ParentMeans(snapshot: seq<ScopeEntry>, p: string)
    ensures IsParent(snapshot, p) <==>
              || (exists v :: (Entry(HostEntry, v) in snapshot || Entry(DomainEntry, v) in snapshot)
                              && NormalizeHostname(v) == Some(p))
              || (exists v :: Entry(UrlEntry, v) in snapshot && NormalizeHostname(NormalizeTarget(v)) == Some(p))
  {
    if e :| e in snapshot && ParentOf(e) == Some(p) {
      EntryParent(e);
      assert Entry(e.kind, e.value) in snapshot;
    }
    if v :| (Entry(HostEntry, v) in snapshot || Entry(DomainEntry, v) in snapshot) && NormalizeHostname(v) == Some(p) {
      var e := if Entry(HostEntry, v) in snapshot then Entry(HostEntry, v) else Entry(DomainEntry, v);
      EntryParent(e);
      assert e in snapshot && ParentOf(e) == Some(p);
    }
    if v :| Entry(UrlEntry, v) in snapshot && NormalizeHostname(NormalizeTarget(v)) == Some(p) {
      EntryParent(Entry(UrlEntry, v));
    }
  }

  lemma EntryParent(e: ScopeEntry)
    ensures ParentOf(e) ==
            if e.Entry? && (e.kind == HostEntry || e.kind == DomainEntry) then NormalizeHostname(e.value)
            else if e.Entry? && e.kind == UrlEntry then NormalizeHostname(NormalizeTarget(e.value))
            else None
  {
  }
}
