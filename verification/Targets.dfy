/**
 Targets and authorization: host normalization (agent_core/safety/policy.py), URL splitting as
 urllib does it, snapshot parents (backend/services/subdomain_policy.py) and the resolved
 allowlist (backend/services/scope_resolution.py).
 */
module Targets {
  import opened Wrappers
  import opened Text
  import opened Hostnames

  // ----- URLs ------------------------------------------------------------

  /** scheme (lower case), network location, and everything after it. */
  datatype Url = Url(scheme: string, netloc: string, rest: string)

  predicate IsSchemeChar(c: char) {
    IsAlnum(LowerChar(c)) || c in "+-."
  }

  predicate IsScheme(s: string) {
    s != "" && 'a' <= LowerChar(s[0]) <= 'z' && forall c :: c in s ==> IsSchemeChar(c)
  }

  /** The part before the first character of `stops`. */
  function Until(s: string, stops: set<char>): (r: string)
    ensures r <= s
    ensures forall c :: c in r ==> c !in stops
    ensures |r| < |s| ==> s[|r|] in stops
  {
    if s == "" || s[0] in stops then "" else [s[0]] + Until(s[1..], stops)
  }

  const REMOVED := {'\t', '\r', '\n'}

  predicate Avoids(s: string, stops: set<char>) {
    forall i :: 0 <= i < |s| ==> s[i] !in stops
  }

  function WithoutTabsAndNewlines(s: string): string {
    if s == "" then ""
    else if s[0] in REMOVED then WithoutTabsAndNewlines(s[1..])
    else [s[0]] + WithoutTabsAndNewlines(s[1..])
  }

  function WithoutLeadingControls(s: string): string {
    if s != "" && s[0] <= ' ' then WithoutLeadingControls(s[1..]) else s
  }

  predicate HasScheme(s: string) {
    var head := Until(s, {':'});
    |head| < |s| && IsScheme(head)
  }

  function AfterScheme(s: string): string {
    if HasScheme(s) then s[|Until(s, {':'})| + 1..] else s
  }

  function Netloc(tail: string): string {
    if "//" <= tail then Until(tail[2..], {'/', '?', '#'}) else ""
  }

  function UrlSplit(text: string): Url {
    var s := WithoutTabsAndNewlines(WithoutLeadingControls(text));
    var tail := AfterScheme(s);
    Url(if HasScheme(s) then Lower(Until(s, {':'})) else "",
        Netloc(tail),
        if "//" <= tail then tail[2 + |Netloc(tail)|..] else tail)
  }

  /** What follows the last `c`; all of it when there is none. */
  function AfterLast(s: string, c: char): string {
    if c !in s then s else AfterLast(s[1..], c)
  }

  /** urlparse(...).hostname for a network location without brackets. */
  function UrlHostname(url: Url): Option<string> {
    var host := Until(AfterLast(url.netloc, '@'), {':'});
    if host == "" then None else Some(Lower(host))
  }

  // ----- policy ----------------------------------------------------------

  /** Policy.normalize_target: the host of a URL, or the lowered text. */
  function NormalizeTarget(target: string): string {
    var t := Strip(target);
    if !Contains(t, "://") then Lower(t)
    else
      match UrlHostname(UrlSplit(t))
      case Some(host) => host
      case None => Lower(t)
  }

  /** Policy.target_allowed for a string target. */
  predicate TargetAllowed(allowed: seq<string>, target: string) {
    exists t :: t in allowed && NormalizeTarget(t) == NormalizeTarget(target)
  }

  /** Surrounding whitespace never changes what a target normalizes to. */
  lemma NormalizeIgnoresPadding(target: string)
    ensures NormalizeTarget(Strip(target)) == NormalizeTarget(target)
  {
    StripFixed(Strip(target));
  }

  lemma StripFixed(s: string)
    requires Stripped(s)
    ensures Strip(s) == s
  {
  }

  /** Normalizing the host form again changes nothing. */
  predicate IsHostForm(host: string) {
    NormalizeTarget(host) == host
  }

  lemma NamesAreHostForms(name: string)
    requires IsName(name)
    ensures IsHostForm(name)
  {
    NameIsPlain(name);
  }

  /** A URL whose host has a leading blank yields a result that is no host form. */
  lemma PaddedUrlHost()
    ensures NormalizeTarget("http" + "://" + " a") == " a" && !IsHostForm(" a")
  {
    assert IsLower(" a");
    LowerFixed(" a");
    PlainUrlTarget("http", " a");
    BlankIsStripped();
  }

  /** A URL that is only a scheme and a host normalizes to the lowered host, padding included. */
  lemma PlainUrlTarget(scheme: string, netloc: string)
    requires IsScheme(scheme) && netloc != "" && Stripped(scheme + "://" + netloc)
    requires Avoids(netloc, REMOVED + {'/', '?', '#', ':', '@'})
    ensures NormalizeTarget(scheme + "://" + netloc) == Lower(netloc)
  {
    var t := scheme + "://" + netloc;
    assert t[|scheme|..|scheme| + 3] == "://";
    assert OccursAt(t, "://", |scheme|);
    StripFixed(t);
    SplitPlainUrl(scheme, netloc);
    PlainHostname(Lower(scheme), netloc);
  }

  lemma BlankIsStripped()
    ensures NormalizeTarget(" a") == "a"
  {
    assert Strip(" a") == "a";
    assert !Contains("a", "://");
    LowerFixed("a");
  }

  lemma PlainHostname(scheme: string, netloc: string)
    requires netloc != "" && Avoids(netloc, {':', '@'})
    ensures UrlHostname(Url(scheme, netloc, "")) == Some(Lower(netloc))
  {
    assert netloc + "" == netloc;
    UntilSplits(netloc, "", {':'});
  }

  /** A URL with nothing but a scheme and a network location. */
  lemma SplitPlainUrl(scheme: string, netloc: string)
    requires IsScheme(scheme)
    requires Avoids(netloc, REMOVED + {'/', '?', '#'})
    ensures UrlSplit(scheme + "://" + netloc) == Url(Lower(scheme), netloc, "")
  {
    var s := scheme + "://" + netloc;
    PlainUrlHead(scheme, netloc);
    AfterPlainScheme(scheme, netloc);
    PlainUrlTail("//" + netloc, netloc);
  }

  lemma AfterPlainScheme(scheme: string, netloc: string)
    requires IsScheme(scheme) && Until(scheme + "://" + netloc, {':'}) == scheme
    ensures HasScheme(scheme + "://" + netloc) && AfterScheme(scheme + "://" + netloc) == "//" + netloc
  {
    var s := scheme + "://" + netloc;
    assert s[|scheme| + 1..] == "//" + netloc;
  }

  lemma PlainUrlHead(scheme: string, netloc: string)
    requires IsScheme(scheme) && Avoids(netloc, REMOVED)
    ensures var s := scheme + "://" + netloc;
            WithoutTabsAndNewlines(WithoutLeadingControls(s)) == s && Until(s, {':'}) == scheme
  {
    var s := scheme + "://" + netloc;
    SchemeChars(scheme);
    assert s[0] == scheme[0];
    assert Avoids(s, REMOVED);
    CleanUrl(s);
    assert s == scheme + ("://" + netloc);
    UntilSplits(scheme, "://" + netloc, {':'});
  }

  lemma PlainUrlTail(tail: string, netloc: string)
    requires tail == "//" + netloc && Avoids(netloc, {'/', '?', '#'})
    ensures "//" <= tail && Until(tail[2..], {'/', '?', '#'}) == netloc && tail[2 + |netloc|..] == ""
  {
    assert tail[2..] == netloc == netloc + "";
    UntilSplits(netloc, "", {'/', '?', '#'});
  }

  lemma SchemeChars(scheme: string)
    requires IsScheme(scheme)
    ensures Avoids(scheme, REMOVED + {':'})
    ensures scheme[0] > ' '
  {
    forall i | 0 <= i < |scheme| ensures scheme[i] !in REMOVED + {':'} {
      assert IsSchemeChar(scheme[i]);
    }
  }

  lemma {:induction false} UntilSplits(a: string, b: string, stops: set<char>)
    requires Avoids(a, stops)
    requires b == "" || b[0] in stops
    ensures Until(a + b, stops) == a
  {
    if a != "" {
      assert a == [a[0]] + a[1..] && (a + b)[1..] == a[1..] + b;
      UntilSplits(a[1..], b, stops);
    } else {
      assert a + b == b;
    }
  }

  lemma {:induction false} CleanUrl(s: string)
    requires Avoids(s, REMOVED)
    requires s != "" ==> s[0] > ' '
    ensures WithoutTabsAndNewlines(WithoutLeadingControls(s)) == s
  {
    NothingToRemove(s);
  }

  lemma {:induction false} NothingToRemove(s: string)
    requires Avoids(s, REMOVED)
    ensures WithoutTabsAndNewlines(s) == s
  {
    if s != "" {
      NothingToRemove(s[1..]);
    }
  }

  // ----- letter case -----------------------------------------------------

  predicate NoLetters(stops: set<char>) {
    forall c :: c in stops ==> !('A' <= c <= 'Z') && !('a' <= c <= 'z')
  }

  lemma LowerTail(s: string, i: nat)
    requires i <= |s|
    ensures Lower(s)[i..] == Lower(s[i..]) && Lower(s)[..i] == Lower(s[..i])
  {
  }

  lemma LowerCons(s: string)
    requires s != ""
    ensures Lower(s) == [LowerChar(s[0])] + Lower(s[1..])
    ensures Lower(s) != "" && Lower(s)[1..] == Lower(s[1..])
  {
  }

  lemma {:induction false} UntilLower(s: string, stops: set<char>)
    requires NoLetters(stops)
    ensures Until(Lower(s), stops) == Lower(Until(s, stops))
  {
    if s != "" {
      LowerCons(s);
      UntilLower(s[1..], stops);
      if s[0] !in stops {
        assert LowerChar(s[0]) !in stops;
        LowerCons([s[0]] + Until(s[1..], stops));
      }
    }
  }

  lemma {:induction false} AfterLastLower(s: string, c: char)
    requires NoLetters({c})
    ensures AfterLast(Lower(s), c) == Lower(AfterLast(s, c))
  {
    assert c in s <==> c in Lower(s) by {
      assert forall i :: 0 <= i < |s| ==> (s[i] == c <==> Lower(s)[i] == c);
    }
    if c in s {
      LowerCons(s);
      AfterLastLower(s[1..], c);
    }
  }

  lemma {:induction false} RemovedLower(s: string)
    ensures WithoutTabsAndNewlines(Lower(s)) == Lower(WithoutTabsAndNewlines(s))
  {
    if s != "" {
      LowerCons(s);
      RemovedLower(s[1..]);
      if s[0] !in REMOVED {
        LowerCons([s[0]] + WithoutTabsAndNewlines(s[1..]));
      }
    }
  }

  lemma {:induction false} ControlsLower(s: string)
    ensures WithoutLeadingControls(Lower(s)) == Lower(WithoutLeadingControls(s))
  {
    if s != "" {
      LowerCons(s);
      ControlsLower(s[1..]);
    }
  }

  lemma SchemeLower(s: string)
    ensures IsScheme(Lower(s)) <==> IsScheme(s)
  {
    LowerTwice(s);
    forall c | c in s ensures IsSchemeChar(c) <==> IsSchemeChar(LowerChar(c)) {
    }
    if IsScheme(Lower(s)) {
      forall c | c in s ensures IsSchemeChar(c) {
        var i :| 0 <= i < |s| && s[i] == c;
        assert Lower(s)[i] in Lower(s);
      }
    }
  }

  lemma LowerTwice(s: string)
    ensures Lower(Lower(s)) == Lower(s)
  {
  }

  lemma AfterSchemeLower(s: string)
    ensures AfterScheme(Lower(s)) == Lower(AfterScheme(s))
  {
    UntilLower(s, {':'});
    var head := Until(s, {':'});
    SchemeLower(head);
    if HasScheme(s) {
      LowerTail(s, |head| + 1);
    }
  }

  lemma NetlocLower(tail: string)
    ensures Netloc(Lower(tail)) == Lower(Netloc(tail))
  {
    if "//" <= tail {
      assert Lower(tail)[0] == '/' && Lower(tail)[1] == '/';
      LowerTail(tail, 2);
      UntilLower(tail[2..], {'/', '?', '#'});
    }
    if "//" <= Lower(tail) {
      assert LowerChar(tail[0]) == "//"[0] && LowerChar(tail[1]) == "//"[1];
    }
  }

  lemma SplitLower(text: string)
    ensures UrlSplit(Lower(text)).netloc == Lower(UrlSplit(text).netloc)
  {
    ControlsLower(text);
    RemovedLower(WithoutLeadingControls(text));
    var s := WithoutTabsAndNewlines(WithoutLeadingControls(text));
    AfterSchemeLower(s);
    NetlocLower(AfterScheme(s));
  }

  lemma HostnameLower(text: string)
    ensures UrlHostname(UrlSplit(Lower(text))) == UrlHostname(UrlSplit(text))
  {
    SplitLower(text);
    var netloc := UrlSplit(text).netloc;
    AfterLastLower(netloc, '@');
    UntilLower(AfterLast(netloc, '@'), {':'});
    LowerTwice(Until(AfterLast(netloc, '@'), {':'}));
  }

  lemma {:induction false} StripLower(s: string)
    ensures Strip(Lower(s)) == Lower(Strip(s))
  {
    if s != "" {
      if IsSpace(s[0]) {
        LowerCons(s);
        StripLower(s[1..]);
      } else if IsSpace(s[|s| - 1]) {
        LowerTail(s, |s| - 1);
        StripLower(s[..|s| - 1]);
      }
    }
  }

  lemma MarkLower(s: string)
    ensures Contains(Lower(s), "://") <==> Contains(s, "://")
  {
    forall i | 0 <= i <= |s| ensures OccursAt(Lower(s), "://", i) <==> OccursAt(s, "://", i) {
      if i + 3 <= |s| {
        var a, b := s[i..i + 3], Lower(s)[i..i + 3];
        assert forall k :: 0 <= k < 3 ==> b[k] == LowerChar(a[k]);
        assert a == [a[0], a[1], a[2]] && b == [b[0], b[1], b[2]];
      }
    }
  }

  /** Letter case never changes what a target normalizes to. */
  lemma NormalizeIgnoresCase(target: string)
    ensures NormalizeTarget(Lower(target)) == NormalizeTarget(target)
  {
    StripLower(target);
    var t := Strip(target);
    MarkLower(t);
    HostnameLower(t);
    LowerTwice(t);
  }

  lemma NoColonNoMark(s: string)
    requires Avoids(s, {':'})
    ensures !Contains(Strip(s), "://")
  {
    if Contains(Strip(s), "://") {
      ContainsChars(Strip(s), "://", ':');
    }
  }

  lemma StrippedLower(s: string)
    requires Stripped(s)
    ensures Stripped(Lower(s))
  {
  }

  /** A normalized target is a host without ':' , or the lowered text without padding. */
  lemma NormalizedShape(target: string)
    ensures var h := NormalizeTarget(target);
            Lower(h) == h && (Avoids(h, {':'}) || (h == Lower(Strip(target)) && Stripped(h)))
  {
    var t := Strip(target);
    LowerTwice(t);
    StrippedLower(t);
    if Contains(t, "://") {
      var host := Until(AfterLast(UrlSplit(t).netloc, '@'), {':'});
      LowerTwice(host);
      forall i | 0 <= i < |host| ensures Lower(host)[i] != ':' {
        assert host[i] in host;
      }
    }
  }

  /** Normalizing twice strips the padding that a URL's host may carry. */
  lemma NormalizeTwice(target: string)
    ensures NormalizeTarget(NormalizeTarget(target)) == Strip(NormalizeTarget(target))
  {
    var h := NormalizeTarget(target);
    NormalizedShape(target);
    StripLower(h);
    if Avoids(h, {':'}) {
      NoColonNoMark(h);
    } else {
      NormalizeIgnoresCase(Strip(target));
      NormalizeIgnoresPadding(target);
      StripFixed(h);
    }
  }

  lemma HostFormIsStripped(target: string)
    ensures IsHostForm(NormalizeTarget(target)) <==> Stripped(NormalizeTarget(target))
  {
    NormalizeTwice(target);
    if Stripped(NormalizeTarget(target)) {
      StripFixed(NormalizeTarget(target));
    }
  }

  /** The text between '@' and ':' of the network location of a target that is a URL. */
  function HostText(target: string): string {
    var t := Strip(target);
    if Contains(t, "://") then Until(AfterLast(UrlSplit(t).netloc, '@'), {':'}) else ""
  }

  lemma StrippedIgnoresCase(s: string)
    ensures Stripped(Lower(s)) <==> Stripped(s)
  {
  }

  /** Normalization is idempotent exactly on targets that are no URL or whose host text has no padding. */
  lemma HostFormIff(target: string)
    ensures IsHostForm(NormalizeTarget(target)) <==> Stripped(HostText(target))
  {
    var t := Strip(target);
    HostFormIsStripped(target);
    if HostText(target) == "" {
      StrippedIgnoresCase(t);
    } else {
      StrippedIgnoresCase(HostText(target));
    }
  }

  // ----- snapshots -------------------------------------------------------

  datatype ScopeKind = HostEntry | CidrEntry | UrlEntry | DomainEntry

  /** A scope entry as persisted; anything that is not a mapping is skipped by every reader. */
  datatype ScopeEntry = Entry(kind: ScopeKind, value: string) | NotAnEntry

  predicate HasKind(entry: ScopeEntry, kinds: set<ScopeKind>) {
    entry.Entry? && entry.kind in kinds
  }

  /** `host` is the non-empty host form of an entry of one of the kinds. */
  predicate IsSnapshotHost(snapshot: seq<ScopeEntry>, kinds: set<ScopeKind>, host: string) {
    host != "" && exists e :: e in snapshot && HasKind(e, kinds) && NormalizeTarget(e.value) == host
  }

  const NAMED: set<ScopeKind> := {HostEntry, UrlEntry, DomainEntry}

  /** Forward DNS and the IP-literal test, as the injectable resolver provides them. */
  datatype Resolver = Resolver(isIp: string -> bool, lookup: string -> seq<string>)

  /** The only two ways a target becomes authorized. */
  ghost predicate Authorized(snapshot: seq<ScopeEntry>, dns: Resolver, target: string) {
    || IsSnapshotHost(snapshot, NAMED, target)
    || exists name :: IsSnapshotHost(snapshot, NAMED, name) && !dns.isIp(name) && target in dns.lookup(name)
  }

  /** The scan's allowlist: exactly the authorized targets, each once. */
  method ResolveScope(snapshot: seq<ScopeEntry>, dns: Resolver) returns (allowed: seq<string>)
    ensures forall t :: t in allowed <==> Authorized(snapshot, dns, t)
    ensures forall i, j :: 0 <= i < j < |allowed| ==> allowed[i] != allowed[j]
  {
    allowed := [];
    for i := 0 to |snapshot|
      invariant forall t :: t in allowed <==> IsSnapshotHost(snapshot[..i], NAMED, t)
      invariant forall k, l :: 0 <= k < l < |allowed| ==> allowed[k] != allowed[l]
    {
      assert snapshot[..i + 1] == snapshot[..i] + [snapshot[i]];
      if HasKind(snapshot[i], NAMED) {
        var host := NormalizeTarget(snapshot[i].value);
        if host != "" && host !in allowed {
          allowed := allowed + [host];
        }
      }
    }
    assert snapshot[..|snapshot|] == snapshot;
    var hostnames := allowed;
    for i := 0 to |hostnames|
      invariant forall t :: t in allowed <==> t in hostnames || ResolvedFrom(hostnames[..i], dns, t)
      invariant forall k, l :: 0 <= k < l < |allowed| ==> allowed[k] != allowed[l]
    {
      assert hostnames[..i + 1] == hostnames[..i] + [hostnames[i]];
      if !dns.isIp(hostnames[i]) {
        var ips := dns.lookup(hostnames[i]);
        for j := 0 to |ips|
          invariant forall t :: t in allowed <==> t in hostnames || ResolvedFrom(hostnames[..i], dns, t) || t in ips[..j]
          invariant forall k, l :: 0 <= k < l < |allowed| ==> allowed[k] != allowed[l]
        {
          assert ips[..j + 1] == ips[..j] + [ips[j]];
          if ips[j] !in allowed {
            allowed := allowed + [ips[j]];
          }
        }
        assert ips[..|ips|] == ips;
      }
    }
    assert hostnames[..|hostnames|] == hostnames;
  }

  predicate ResolvedFrom(names: seq<string>, dns: Resolver, target: string) {
    exists name :: name in names && !dns.isIp(name) && target in dns.lookup(name)
  }

  /** Name-shaped values of a snapshot, normalized. */
  function ParentOf(entry: ScopeEntry): Option<string> {
    if HasKind(entry, {HostEntry, DomainEntry}) then NormalizeHostname(entry.value)
    else if HasKind(entry, {UrlEntry}) then NormalizeHostname(NormalizeTarget(entry.value))
    else None
  }

  predicate IsParent(snapshot: seq<ScopeEntry>, name: string) {
    exists e :: e in snapshot && ParentOf(e) == Some(name)
  }

  /** snapshot_parents: exactly the name-shaped values, each once. */
  method SnapshotParents(snapshot: seq<ScopeEntry>) returns (parents: seq<string>)
    ensures forall p :: p in parents <==> IsParent(snapshot, p)
    ensures forall i, j :: 0 <= i < j < |parents| ==> parents[i] != parents[j]
  {
    parents := [];
    for i := 0 to |snapshot|
      invariant forall p :: p in parents <==> IsParent(snapshot[..i], p)
      invariant forall k, l :: 0 <= k < l < |parents| ==> parents[k] != parents[l]
    {
      assert snapshot[..i + 1] == snapshot[..i] + [snapshot[i]];
      var name := ParentOf(snapshot[i]);
      if name.Some? && name.value !in parents {
        parents := parents + [name.value];
      }
    }
    assert snapshot[..|snapshot|] == snapshot;
  }
}
