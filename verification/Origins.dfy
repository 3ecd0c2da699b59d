/** Exact HTTP origins: validation and canonical form (backend/services/live_authorization_service.py). */
module Origins {
  import opened Wrappers
  import opened Text
  import opened Hostnames
  import opened Targets

  /** An entry of an origin list as it is stored. */
  datatype OriginEntry = OriginEntry(origin: string, scheme: string, host: string, port: nat)

  function DefaultPort(scheme: string): Option<nat> {
    if scheme == "http" then Some(80) else if scheme == "https" then Some(443) else None
  }

  predicate IsDigits(s: string) {
    s != "" && forall c :: c in s ==> IsDigit(c)
  }

  /** Dotted spellings that resolvers would take for addresses. */
  predicate IsIpish(host: string) {
    var labels := Labels(host);
    (|labels| > 1 && forall l :: l in labels ==> IsDigits(l)) || exists l :: l in labels && "0x" <= l
  }

  /** _canonical_origin_host for a host without ':' - the URL splitter cuts at the first one. */
  function OriginHost(host: string): Option<string> {
    var lowered := Lower(host);
    if ':' in lowered || IsDigits(lowered) || IsIPv4(lowered) || MatchesIPv4Re(lowered) || IsIpish(lowered) then None
    else if |lowered| > MAX_NAME || !MatchesHostnameRe(lowered) then None
    else Some(lowered)
  }

  /** The text after the first ':' of a network location. */
  function PortText(netloc: string): string {
    var host := Until(netloc, {':'});
    if |host| == |netloc| then "" else netloc[|host| + 1..]
  }

  predicate PortAccepted(text: string, default: nat) {
    text == "" || (IsDigits(text) && DigitsValue(text) <= 65535 && DigitsValue(text) == default)
  }

  /** parse_origin; None stands for LIVE_AUTHORIZATION_INVALID. */
  function ParseOrigin(value: string): Option<OriginEntry> {
    var raw := Strip(value);
    if raw == "" || '*' in raw || (exists c :: c in raw && IsSpace(c)) || '?' in raw || '#' in raw then None
    else
      var parsed := UrlSplit(raw);
      var port := DefaultPort(parsed.scheme);
      if port.None? || '@' in parsed.netloc || parsed.rest != "" then None
      else FromHost(parsed.scheme, port.value, UrlHostname(parsed), PortText(parsed.netloc))
  }

  function FromHost(scheme: string, default: nat, host: Option<string>, port: string): Option<OriginEntry> {
    if host.None? then None
    else
      var canonical := OriginHost(host.value);
      if canonical.None? || !PortAccepted(port, default) then None
      else Some(OriginEntry(scheme + "://" + canonical.value, scheme, canonical.value, default))
  }

  // ----- canonical origins -----------------------------------------------

  lemma {:induction false} CleanedAvoids(s: string)
    ensures Avoids(WithoutTabsAndNewlines(s), REMOVED)
  {
    if s != "" {
      CleanedAvoids(s[1..]);
    }
  }

  lemma {:induction false} AfterLastAvoids(s: string, c: char, stops: set<char>)
    requires Avoids(s, stops)
    ensures Avoids(AfterLast(s, c), stops)
  {
    if c in s {
      AfterLastAvoids(s[1..], c, stops);
    }
  }

  lemma HostLacksNewline(text: string, host: string)
    requires UrlHostname(UrlSplit(text)) == Some(host)
    ensures '\n' !in host && ':' !in host && host != "" && Lower(host) == host
  {
    var s := WithoutTabsAndNewlines(WithoutLeadingControls(text));
    CleanedAvoids(WithoutLeadingControls(text));
    var netloc := UrlSplit(text).netloc;
    var tail := AfterScheme(s);
    assert Avoids(tail, REMOVED);
    assert Avoids(netloc, REMOVED) by {
      if "//" <= tail {
        assert netloc <= tail[2..];
      }
    }
    AfterLastAvoids(netloc, '@', REMOVED);
    var raw := Until(AfterLast(netloc, '@'), {':'});
    LowerTwice(raw);
    forall i | 0 <= i < |host| ensures host[i] != '\n' && host[i] != ':' {
      assert raw[i] == AfterLast(netloc, '@')[i];
      assert raw[i] in raw;
    }
  }

  /** A canonical origin: an http or https scheme and a DNS name that resembles no address. */
  predicate IsCanonical(e: OriginEntry) {
    && DefaultPort(e.scheme) == Some(e.port) && e.origin == e.scheme + "://" + e.host
    && IsName(e.host) && OriginHost(e.host) == Some(e.host)
  }

  lemma FromHostIsCanonical(scheme: string, default: nat, host: string, port: string)
    requires DefaultPort(scheme) == Some(default) && '\n' !in host && Lower(host) == host
    requires FromHost(scheme, default, Some(host), port).Some?
    ensures IsCanonical(FromHost(scheme, default, Some(host), port).value)
  {
    assert host != "" ==> host[|host| - 1..] == [host[|host| - 1]];
    assert Chomp(host) == host;
  }

  lemma ParsedIsCanonical(value: string)
    requires ParseOrigin(value).Some?
    ensures IsCanonical(ParseOrigin(value).value)
  {
    var parsed := UrlSplit(Strip(value));
    var host := UrlHostname(parsed).value;
    HostLacksNewline(Strip(value), host);
    FromHostIsCanonical(parsed.scheme, DefaultPort(parsed.scheme).value, host, PortText(parsed.netloc));
  }

  lemma SchemeIsPlain(scheme: string)
    requires DefaultPort(scheme).Some?
    ensures IsScheme(scheme) && Lower(scheme) == scheme && |scheme| >= 4
    ensures forall c :: c in scheme ==> 'a' <= c <= 'z'
  {
    assert "http"[0] == 'h' && "https"[0] == 'h';
    LowerFixed(scheme);
  }

  lemma CanonicalText(e: OriginEntry)
    requires IsCanonical(e)
    ensures Strip(e.origin) == e.origin && e.origin != ""
    ensures forall c :: c in e.origin ==> IsPlainChar(c)
  {
    SchemeIsPlain(e.scheme);
    NameChars(e.host);
    PlainConcat(e.scheme, "://");
    PlainConcat(e.scheme + "://", e.host);
    var o := e.origin;
    assert o[0] in o && o[|o| - 1] in o;
    StripFixed(o);
  }

  predicate IsPlainChar(c: char) {
    !IsSpace(c) && c != '*' && c != '?' && c != '#'
  }

  lemma PlainConcat(a: string, b: string)
    requires (forall c :: c in a ==> IsPlainChar(c)) && forall c :: c in b ==> IsPlainChar(c)
    ensures forall c :: c in a + b ==> IsPlainChar(c)
  {
  }

  lemma HostAvoids(host: string)
    requires IsName(host)
    ensures Avoids(host, REMOVED + {'/', '?', '#', ':', '@'}) && '@' !in host
  {
    NameChars(host);
    NameIsPlain(host);
    forall i | 0 <= i < |host| ensures host[i] !in REMOVED + {'/', '?', '#', ':', '@'} {
      assert host[i] in host;
    }
  }

  lemma OriginSplits(scheme: string, host: string)
    requires DefaultPort(scheme).Some? && IsName(host)
    ensures UrlSplit(scheme + "://" + host) == Url(scheme, host, "")
  {
    SchemeIsPlain(scheme);
    HostAvoids(host);
    SplitPlainUrl(scheme, host);
  }

  lemma OriginHostname(scheme: string, host: string)
    requires IsName(host) && host != "" && Lower(host) == host
    ensures UrlHostname(Url(scheme, host, "")) == Some(host)
  {
    HostAvoids(host);
    PlainHostname(scheme, host);
  }

  lemma OriginPort(host: string)
    requires Avoids(host, {':'})
    ensures PortText(host) == ""
  {
    assert host + "" == host;
    UntilSplits(host, "", {':'});
  }

  lemma CanonicalSplits(e: OriginEntry)
    requires IsCanonical(e)
    ensures UrlSplit(e.origin) == Url(e.scheme, e.host, "") && UrlHostname(UrlSplit(e.origin)) == Some(e.host)
    ensures '@' !in e.host && PortText(e.host) == ""
  {
    NameLowered(e.host);
    NameChars(e.host);
    OriginSplits(e.scheme, e.host);
    OriginHostname(e.scheme, e.host);
    HostAvoids(e.host);
    assert Avoids(e.host, {':'});
    OriginPort(e.host);
  }

  /** Parsing is idempotent: the canonical text of an origin parses to the same entry. */
  lemma CanonicalIsFixed(e: OriginEntry)
    requires IsCanonical(e)
    ensures ParseOrigin(e.origin) == Some(e)
  {
    CanonicalText(e);
    CanonicalSplits(e);
  }

  lemma ParseIsIdempotent(value: string)
    requires ParseOrigin(value).Some?
    ensures ParseOrigin(ParseOrigin(value).value.origin) == ParseOrigin(value)
  {
    ParsedIsCanonical(value);
    CanonicalIsFixed(ParseOrigin(value).value);
  }

  // ----- lists -----------------------------------------------------------

  function NameOf(value: string): seq<string> {
    match ParseOrigin(value)
    case Some(e) => [e.origin]
    case None => []
  }

  predicate AllParse(values: seq<string>) {
    forall i :: 0 <= i < |values| ==> ParseOrigin(values[i]).Some?
  }

  function Entries(names: seq<string>): (r: seq<OriginEntry>)
    requires AllParse(names)
    ensures |r| == |names| && forall i :: 0 <= i < |r| ==> ParseOrigin(names[i]) == Some(r[i])
  {
    seq(|names|, i requires 0 <= i < |names| => ParseOrigin(names[i]).value)
  }

  function OriginsOf(entries: seq<OriginEntry>): (r: seq<string>)
    ensures |r| == |entries| && forall i :: 0 <= i < |r| ==> r[i] == entries[i].origin
  {
    seq(|entries|, i requires 0 <= i < |entries| => entries[i].origin)
  }

  /** A list of canonical entries in order, each origin once. */
  predicate IsCanonicalList(entries: seq<OriginEntry>) {
    (forall i :: 0 <= i < |entries| ==> IsCanonical(entries[i]))
    && forall i, j :: 0 <= i < j < |entries| ==> Less(entries[i].origin, entries[j].origin)
  }

  lemma NamesParse(values: seq<string>)
    requires AllParse(values)
    ensures AllParse(Sorted(Gather(values, NameOf)))
    ensures forall i :: 0 <= i < |Sorted(Gather(values, NameOf))| ==>
              var n := Sorted(Gather(values, NameOf))[i]; ParseOrigin(n).Some? && ParseOrigin(n).value.origin == n
  {
    var names := Sorted(Gather(values, NameOf));
    forall i | 0 <= i < |names| ensures ParseOrigin(names[i]).Some? && ParseOrigin(names[i]).value.origin == names[i] {
      assert names[i] in Elements(names);
      GatherIn(values, NameOf, names[i]);
      var v :| v in values && names[i] in NameOf(v);
      ParseIsIdempotent(v);
    }
  }

  /** _parse_origin_list: None when a value is no origin, or when there are none. */
  function ParseList(values: seq<string>): Option<seq<OriginEntry>> {
    if values == [] || !AllParse(values) then None
    else
      NamesParse(values);
      Some(Entries(Sorted(Gather(values, NameOf))))
  }

  /** The origin a parser finds in a value, if any. */
  function NameBy(parse: string -> Option<OriginEntry>): string -> seq<string> {
    (v: string) => if parse(v).Some? then [parse(v).value.origin] else []
  }

  lemma NameByIsNameOf(values: seq<string>)
    ensures Gather(values, NameBy(ParseOrigin)) == Gather(values, NameOf)
  {
    GatherSame(values, NameBy(ParseOrigin), NameOf);
  }

  lemma SortedNames(values: seq<string>)
    requires AllParse(values) && values != []
    ensures var out := Distinct(Gather(values, NameOf));
            AllParse(Sorted(out)) && ParseList(values) == Some(Entries(Sorted(out)))
  {
    NamesParse(values);
    DistinctMembers(Gather(values, NameOf));
    SortedBySet(Distinct(Gather(values, NameOf)), Gather(values, NameOf));
  }

  /** The values are checked in order, then each new origin is kept once, and the result is sorted. */
  method ParseOriginList(values: seq<string>) returns (r: Option<seq<OriginEntry>>)
    ensures r == ParseList(values)
  {
    var usable := AllUsable(values, ParseOrigin);
    if !usable || values == [] {
      return None;
    }
    var names := CollectAll(values, NameBy(ParseOrigin));
    NameByIsNameOf(values);
    SortedNames(values);
    r := Some(Entries(Sorted(names)));
  }

  method AllUsable(values: seq<string>, parse: string -> Option<OriginEntry>) returns (ok: bool)
    ensures ok <==> forall j :: 0 <= j < |values| ==> parse(values[j]).Some?
  {
    for i := 0 to |values|
      invariant forall j :: 0 <= j < i ==> parse(values[j]).Some?
    {
      if parse(values[i]).None? {
        return false;
      }
    }
    return true;
  }

  /** Whatever the list accepts is canonical: sorted, without repetitions, each entry as parsed. */
  lemma ParsedListIsCanonical(values: seq<string>)
    requires ParseList(values).Some?
    ensures IsCanonicalList(ParseList(values).value) && ParseList(values).value != []
  {
    NamesParse(values);
    var names := Sorted(Gather(values, NameOf));
    SortedIsSorted(Gather(values, NameOf));
    var entries := ParseList(values).value;
    forall i | 0 <= i < |entries| ensures IsCanonical(entries[i]) && entries[i].origin == names[i] {
      ParsedIsCanonical(names[i]);
    }
    assert values[0] in values && NameOf(values[0])[0] in NameOf(values[0]);
    GatherIn(values, NameOf, NameOf(values[0])[0]);
    assert NameOf(values[0])[0] in Elements(names);
  }

  /** A canonical list is what parsing its own origins gives back. */
  lemma CanonicalListIsFixed(entries: seq<OriginEntry>)
    requires IsCanonicalList(entries) && entries != []
    ensures ParseList(OriginsOf(entries)) == Some(entries)
  {
    var names := OriginsOf(entries);
    forall i | 0 <= i < |names| ensures ParseOrigin(names[i]) == Some(entries[i]) && NameOf(names[i]) == [names[i]] {
      CanonicalIsFixed(entries[i]);
    }
    GatherSingletons(names, NameOf, names);
    assert StrictlySorted(names);
    SortedFixed(names);
    NamesParse(names);
    assert Entries(names) == entries;
  }

  /** effective_origins: what no exclusion names, in order. */
  function Effective(entries: seq<OriginEntry>, exclusions: seq<OriginEntry>): seq<OriginEntry> {
    if entries == [] then []
    else
      var last := entries[|entries| - 1];
      Effective(entries[..|entries| - 1], exclusions)
      + if last.origin in OriginsOf(exclusions) then [] else [last]
  }

  lemma {:induction false} EffectiveMembers(entries: seq<OriginEntry>, exclusions: seq<OriginEntry>)
    ensures forall e :: e in Effective(entries, exclusions) <==> e in entries && e.origin !in OriginsOf(exclusions)
  {
    if entries != [] {
      var front, last := entries[..|entries| - 1], entries[|entries| - 1];
      EffectiveMembers(front, exclusions);
      assert entries == front + [last];
    }
  }

  lemma CanonicalFront(entries: seq<OriginEntry>)
    requires IsCanonicalList(entries) && entries != []
    ensures var front, last := entries[..|entries| - 1], entries[|entries| - 1];
            && IsCanonicalList(front) && IsCanonical(last)
            && forall e :: e in front ==> Less(e.origin, last.origin)
  {
    var front := entries[..|entries| - 1];
    assert forall i :: 0 <= i < |front| ==> front[i] == entries[i];
  }

  lemma CanonicalSnoc(kept: seq<OriginEntry>, last: OriginEntry)
    requires IsCanonicalList(kept) && IsCanonical(last) && forall e :: e in kept ==> Less(e.origin, last.origin)
    ensures IsCanonicalList(kept + [last])
  {
  }

  /** Dropping entries keeps a list canonical. */
  lemma {:induction false} EffectiveIsCanonical(entries: seq<OriginEntry>, exclusions: seq<OriginEntry>)
    requires IsCanonicalList(entries)
    ensures IsCanonicalList(Effective(entries, exclusions))
    ensures forall e :: e in Effective(entries, exclusions) <==> e in entries && e.origin !in OriginsOf(exclusions)
  {
    EffectiveMembers(entries, exclusions);
    if entries != [] {
      var front, last := entries[..|entries| - 1], entries[|entries| - 1];
      CanonicalFront(entries);
      EffectiveIsCanonical(front, exclusions);
      CanonicalSnoc(Effective(front, exclusions), last);
    }
  }
}
