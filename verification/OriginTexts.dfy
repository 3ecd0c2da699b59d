/**
 Which texts are live origins, spelled out: optional control characters, http or https in any
 case, a DNS name in any case that resembles no address, and at most the default port.
 */
module OriginTexts {
  import opened Wrappers
  import opened Text
  import opened Hostnames
  import opened Targets
  import opened TargetTexts
  import opened Origins

  /** Numbers or a hexadecimal label where a name has words: what resolvers may take for an address. */
  predicate AddressLike(host: string) {
    var labels := Split(host, '.');
    || (forall l :: l in labels ==> l != "" && forall c :: c in l ==> IsDigit(c))
    || exists l :: l in labels && "0x" <= l
  }

  predicate IsOriginHost(host: string) {
    IsName(Lower(host)) && !AddressLike(Lower(host))
  }

  predicate IsOriginPort(port: string, default: nat) {
    || port == "" || port == ":"
    || (port[0] == ':' && (forall c :: c in port[1..] ==> IsDigit(c)) && DigitsValue(port[1..]) == default)
  }

  /** The characters that URL splitting drops in front; blanks among them are stripped before. */
  predicate Controls(s: string) {
    forall c :: c in s ==> c <= ' ' && !IsSpace(c)
  }

  /** scheme, host and port as they are written, and no user, path, query or fragment. */
  predicate IsOriginText(raw: string, controls: string, scheme: string, host: string, port: string) {
    && raw == controls + (scheme + "://" + (host + port)) && Controls(controls)
    && IsOriginHost(host)
    && (|| (Lower(scheme) == "http" && IsOriginPort(port, 80)) || (Lower(scheme) == "https" && IsOriginPort(port, 443)))
  }

  // ----- hosts -----------------------------------------------------------

  /** The four address checks. */
  predicate SeemsAddress(low: string) {
    IsDigits(low) || IsIPv4(low) || MatchesIPv4Re(low) || IsIpish(low)
  }

  lemma OriginHostUnfolds(host: string)
    ensures var low := Lower(host);
            OriginHost(host) ==
            if ':' in low || SeemsAddress(low) || |low| > 253 || !MatchesHostnameRe(low) then None else Some(low)
  {
  }

  lemma {:induction false} SeemsMeans(low: string)
    requires Chomp(low) == low
    ensures SeemsAddress(low) <==> AddressLike(low)
  {
    QuadsAreAddressLike(low);
    OneLabel(low);
  }

  /** On a lowered name the address checks come down to one. */
  lemma HostMeans(host: string)
    requires '\n' !in host
    ensures OriginHost(host) == if IsOriginHost(host) then Some(Lower(host)) else None
  {
    var low := Lower(host);
    NoNewline(host);
    OriginHostUnfolds(host);
    SeemsMeans(low);
    if IsName(low) {
      NameIsPlain(low);
    }
  }

  lemma NoNewline(host: string)
    requires '\n' !in host
    ensures Chomp(Lower(host)) == Lower(host)
  {
    var low := Lower(host);
    if low != "" {
      assert low[|low| - 1..] == [low[|low| - 1]];
      assert low[|low| - 1] == LowerChar(host[|low| - 1]) && host[|low| - 1] in host;
    }
  }

  lemma QuadsAreAddressLike(s: string)
    ensures IsDottedQuad(s) ==> AddressLike(s)
  {
  }

  lemma OneLabel(s: string)
    ensures IsDigits(s) ==> AddressLike(s)
    ensures |Split(s, '.')| == 1 && AddressLike(s) ==> IsDigits(s) || IsIpish(s)
  {
    if IsDigits(s) {
      assert '.' !in s;
      SplitWithout(s, '.');
    }
    JoinSplit(s, '.');
    if |Split(s, '.')| == 1 {
      assert Split(s, '.')[0] == s && s in Split(s, '.');
    }
  }

  // ----- taking a text apart ---------------------------------------------

  lemma {:induction false} ControlsDropped(controls: string, rest: string)
    requires (forall c :: c in controls ==> c <= ' ') && (rest == "" || rest[0] > ' ')
    ensures WithoutLeadingControls(controls + rest) == rest
  {
    if controls == "" {
      assert controls + rest == rest;
    } else {
      assert (controls + rest)[1..] == controls[1..] + rest;
      assert controls[0] in controls && forall c :: c in controls[1..] ==> c in controls;
      ControlsDropped(controls[1..], rest);
    }
  }

  lemma {:induction false} ControlsTaken(s: string) returns (controls: string)
    ensures s == controls + WithoutLeadingControls(s) && forall c :: c in controls ==> c <= ' '
  {
    if s != "" && s[0] <= ' ' {
      var more := ControlsTaken(s[1..]);
      controls := [s[0]] + more;
      OneMore(s, more, WithoutLeadingControls(s[1..]));
    } else {
      controls := "";
      assert s == "" + s;
    }
  }

  lemma OneMore(s: string, more: string, rest: string)
    requires s != "" && s[1..] == more + rest
    ensures s == [s[0]] + more + rest
  {
    assert s == [s[0]] + s[1..];
  }

  lemma SchemeLetters(scheme: string)
    requires Lower(scheme) == "http" || Lower(scheme) == "https"
    ensures IsScheme(scheme) && Avoids(scheme, {':'}) && scheme[0] > ' ' && Avoids(scheme, REMOVED)
    ensures forall c :: c in scheme ==> 'a' <= LowerChar(c) <= 'z'
  {
    forall i | 0 <= i < |scheme| ensures 'a' <= LowerChar(scheme[i]) <= 'z' {
      assert Lower(scheme)[i] == LowerChar(scheme[i]);
      assert Lower(scheme)[i] in Lower(scheme);
    }
    forall c | c in scheme ensures 'a' <= LowerChar(c) <= 'z' && IsSchemeChar(c) {
      var i :| 0 <= i < |scheme| && scheme[i] == c;
    }
    assert scheme[0] in scheme;
  }

  /** Splitting what has a scheme and a network location and nothing else. */
  lemma OriginUrl(controls: string, scheme: string, netloc: string)
    requires Controls(controls) && (Lower(scheme) == "http" || Lower(scheme) == "https")
    requires Avoids(netloc, REMOVED + {'/', '?', '#'})
    ensures UrlSplit(controls + (scheme + "://" + netloc)) == Url(Lower(scheme), netloc, "")
  {
    SchemeLetters(scheme);
    var s := scheme + "://" + netloc;
    assert s + "" == s && s[0] == scheme[0];
    ControlsDropped(controls, s);
    FewerStops(netloc, REMOVED + {'/', '?', '#'}, REMOVED);
    FewerStops(netloc, REMOVED + {'/', '?', '#'}, {'/', '?', '#'});
    CleanText(scheme, netloc, "");
    assert WithoutLeadingControls(s) == s;
    SplitTail(scheme, netloc);
  }

  lemma SplitTail(scheme: string, netloc: string)
    requires IsScheme(scheme) && Avoids(scheme, {':'}) && Avoids(netloc, {'/', '?', '#'})
    ensures var s := scheme + "://" + netloc;
            HasScheme(s) && Until(s, {':'}) == scheme && AfterScheme(s) == "//" + netloc && Netloc(AfterScheme(s)) == netloc
  {
    var s, tail := scheme + "://" + netloc, "//" + netloc;
    assert s == scheme + (":" + tail);
    UntilSplits(scheme, ":" + tail, {':'});
    assert s[|scheme| + 1..] == tail;
    assert tail[2..] == netloc == netloc + "";
    UntilSplits(netloc, "", {'/', '?', '#'});
  }

  lemma HostAndPort(host: string, port: string)
    requires Avoids(host, {':'}) && (port == "" || port[0] == ':')
    ensures Until(host + port, {':'}) == host && PortText(host + port) == if port == "" then "" else port[1..]
  {
    UntilSplits(host, port, {':'});
    if port != "" {
      assert (host + port)[|host| + 1..] == port[1..];
    }
  }

  // ----- the two directions ----------------------------------------------

  lemma HostChars(host: string)
    requires IsName(Lower(host))
    ensures host != "" && forall c :: c in host ==> IsAlnum(LowerChar(c)) || c == '-' || c == '.'
  {
    NameChars(Lower(host));
    forall c | c in host ensures IsAlnum(LowerChar(c)) || c == '-' || c == '.' {
      var i :| 0 <= i < |host| && host[i] == c;
      assert Lower(host)[i] == LowerChar(c) && Lower(host)[i] in Lower(host);
    }
  }

  predicate PlainChar(c: char) {
    !IsSpace(c) && c !in "*?#@/"
  }

  lemma PlainNetloc(host: string, port: string, default: nat)
    requires IsName(Lower(host)) && IsOriginPort(port, default)
    ensures (forall c :: c in host + port ==> PlainChar(c)) && Avoids(host, {':'}) && (port == "" || port[0] == ':')
    ensures Avoids(host + port, REMOVED + {'/', '?', '#'}) && '@' !in host + port && '\n' !in host
  {
    HostChars(host);
    forall c | c in port ensures c == ':' || IsDigit(c) {
      var i :| 0 <= i < |port| && port[i] == c;
      if i > 0 {
        assert port[1..][i - 1] == c;
      }
    }
    forall c | c in host + port ensures PlainChar(c) {
      assert c in host || c in port;
    }
    forall i | 0 <= i < |host + port| ensures (host + port)[i] !in REMOVED + {'/', '?', '#'} {
      assert (host + port)[i] in host + port;
    }
  }

  lemma OriginTextIsPlain(controls: string, scheme: string, netloc: string)
    requires Controls(controls) && (Lower(scheme) == "http" || Lower(scheme) == "https")
    requires forall c :: c in netloc ==> PlainChar(c)
    ensures var raw := controls + (scheme + "://" + netloc);
            raw != "" && '*' !in raw && '?' !in raw && '#' !in raw && forall c :: c in raw ==> !IsSpace(c)
  {
    SchemeLetters(scheme);
  }

  lemma PortMeans(port: string, default: nat)
    requires default == 80 || default == 443
    ensures port == "" || port[0] == ':' ==>
              (PortAccepted(if port == "" then "" else port[1..], default) <==> IsOriginPort(port, default))
  {
    if port != "" && port[0] == ':' {
      assert port[1..] == "" <==> port == ":";
    }
  }

  /** Every such text is an origin, in canonical form. */
  lemma TextIsOrigin(value: string, controls: string, scheme: string, host: string, port: string)
    requires IsOriginText(Strip(value), controls, scheme, host, port)
    ensures ParseOrigin(value) ==
            Some(OriginEntry(Lower(scheme) + "://" + Lower(host), Lower(scheme), Lower(host),
                             if Lower(scheme) == "http" then 80 else 443))
  {
    var default := if Lower(scheme) == "http" then 80 else 443;
    PlainNetloc(host, port, default);
    OriginTextIsPlain(controls, scheme, host + port);
    OriginUrl(controls, scheme, host + port);
    HostAndPort(host, port);
    PortMeans(port, default);
    LowerTwice(host);
    HostMeans(host);
    LoweredHost(host);
    FromParts(Lower(scheme), default, host, port);
    ParsedBy(value, Lower(scheme), default, host + port);
  }

  lemma ParsedBy(value: string, scheme: string, default: nat, netloc: string)
    requires UrlSplit(Strip(value)) == Url(scheme, netloc, "") && DefaultPort(scheme) == Some(default) && '@' !in netloc
    requires var raw := Strip(value);
             raw != "" && '*' !in raw && '?' !in raw && '#' !in raw && forall c :: c in raw ==> !IsSpace(c)
    ensures ParseOrigin(value) == FromHost(scheme, default, UrlHostname(Url(scheme, netloc, "")), PortText(netloc))
  {
  }

  lemma LoweredHost(host: string)
    requires IsOriginHost(host) && '\n' !in host
    ensures OriginHost(Lower(host)) == Some(Lower(host))
  {
    LowerTwice(host);
    assert '\n' !in Lower(host) by {
      forall i | 0 <= i < |host| ensures Lower(host)[i] != '\n' {
        assert host[i] in host;
      }
    }
    HostMeans(Lower(host));
  }

  lemma FromParts(scheme: string, default: nat, host: string, port: string)
    requires Until(host + port, {':'}) == host && host != "" && '@' !in host + port
    requires OriginHost(Lower(host)) == Some(Lower(host))
    requires PortAccepted(PortText(host + port), default)
    ensures FromHost(scheme, default, UrlHostname(Url(scheme, host + port, "")), PortText(host + port)) ==
            Some(OriginEntry(scheme + "://" + Lower(host), scheme, Lower(host), default))
  {
  }

  /** What acceptance says of the parts that splitting yields. */
  predicate PartsAccepted(raw: string, parsed: Url) {
    && (forall c :: c in raw ==> !IsSpace(c)) && DefaultPort(parsed.scheme).Some?
    && '@' !in parsed.netloc && parsed.rest == "" && UrlHostname(parsed).Some?
    && OriginHost(UrlHostname(parsed).value).Some?
    && PortAccepted(PortText(parsed.netloc), DefaultPort(parsed.scheme).value)
  }

  lemma AcceptedParts(value: string)
    requires ParseOrigin(value).Some?
    ensures PartsAccepted(Strip(value), UrlSplit(Strip(value)))
  {
  }

  lemma BlankFree(s: string)
    requires forall c :: c in s ==> !IsSpace(c)
    ensures WithoutTabsAndNewlines(s) == s
  {
    forall i | 0 <= i < |s| ensures s[i] !in REMOVED {
      assert s[i] in s;
    }
    NothingToRemove(s);
  }

  lemma TailIs(tail: string, netloc: string)
    requires Netloc(tail) == netloc && netloc != "" && "//" <= tail && 2 + |netloc| <= |tail| && tail[2 + |netloc|..] == ""
    ensures tail == "//" + netloc
  {
    assert netloc == tail[2..][..|netloc|];
    assert tail == tail[..2] + tail[2..2 + |netloc|] + tail[2 + |netloc|..];
  }

  lemma Headed(s: string)
    requires HasScheme(s)
    ensures s == Until(s, {':'}) + ":" + AfterScheme(s)
  {
    var head := Until(s, {':'});
    assert s[|head|] == ':';
    assert s == head + [s[|head|]] + s[|head| + 1..];
  }

  lemma Slashed(tail: string)
    requires Netloc(tail) != "" && tail[2 + |Netloc(tail)|..] == ""
    ensures tail == "//" + Netloc(tail)
  {
    TailIs(tail, Netloc(tail));
  }

  lemma Glued(head: string, netloc: string)
    ensures head + ":" + ("//" + netloc) == head + "://" + netloc
  {
  }

  /** A text with a scheme, a network location and nothing behind it. */
  lemma Reassembled(s: string, netloc: string)
    requires HasScheme(s) && Netloc(AfterScheme(s)) == netloc && netloc != ""
    requires AfterScheme(s)[2 + |netloc|..] == ""
    ensures s == Until(s, {':'}) + "://" + netloc
  {
    Headed(s);
    Slashed(AfterScheme(s));
    Glued(Until(s, {':'}), netloc);
  }

  lemma WebScheme(s: string, parsed: Url)
    requires parsed.scheme == (if HasScheme(s) then Lower(Until(s, {':'})) else "") && DefaultPort(parsed.scheme).Some?
    ensures HasScheme(s) && parsed.scheme == Lower(Until(s, {':'}))
  {
  }

  lemma HostnameIs(parsed: Url, host: string)
    requires '@' !in parsed.netloc && UrlHostname(parsed).Some? && host == Until(parsed.netloc, {':'})
    ensures UrlHostname(parsed).value == Lower(host)
  {
  }

  lemma HostShape(host: string)
    requires OriginHost(Lower(host)).Some? && '\n' !in Lower(host)
    ensures IsOriginHost(host)
  {
    HostMeans(Lower(host));
    LowerTwice(host);
  }

  lemma PortShape(host: string, port: string, default: nat)
    requires host == Until(host + port, {':'}) && PortAccepted(PortText(host + port), default)
    requires default == 80 || default == 443
    ensures IsOriginPort(port, default)
  {
    assert port != "" ==> (host + port)[|host|] == port[0];
    assert Avoids(host, {':'}) by {
      forall i | 0 <= i < |host| ensures host[i] !in {':'} {
        assert host[i] in host;
      }
    }
    HostAndPort(host, port);
    PortMeans(port, default);
  }

  lemma SplitRaw(raw: string)
    requires forall c :: c in raw ==> !IsSpace(c)
    ensures var s := WithoutLeadingControls(raw);
            UrlSplit(raw) == Url(if HasScheme(s) then Lower(Until(s, {':'})) else "", Netloc(AfterScheme(s)),
                                 if "//" <= AfterScheme(s) then AfterScheme(s)[2 + |Netloc(AfterScheme(s))|..] else AfterScheme(s))
  {
    var controls := ControlsTaken(raw);
    BlankFree(WithoutLeadingControls(raw));
  }

  lemma SchemeOfParts(s: string, parsed: Url) returns (scheme: string)
    requires parsed.scheme == (if HasScheme(s) then Lower(Until(s, {':'})) else "") && DefaultPort(parsed.scheme).Some?
    requires parsed.netloc == Netloc(AfterScheme(s)) && parsed.netloc != ""
    requires "//" <= AfterScheme(s) ==> AfterScheme(s)[2 + |parsed.netloc|..] == ""
    ensures parsed.scheme == Lower(scheme) && s == scheme + "://" + parsed.netloc
  {
    WebScheme(s, parsed);
    Reassembled(s, parsed.netloc);
    scheme := Until(s, {':'});
  }

  lemma HostNeedsNetloc(parsed: Url)
    requires UrlHostname(parsed).Some?
    ensures parsed.netloc != ""
  {
  }

  lemma PartsOfText(raw: string) returns (scheme: string)
    requires PartsAccepted(raw, UrlSplit(raw))
    ensures UrlSplit(raw).scheme == Lower(scheme)
    ensures WithoutLeadingControls(raw) == scheme + "://" + UrlSplit(raw).netloc
  {
    var parsed := UrlSplit(raw);
    SplitRaw(raw);
    HostNeedsNetloc(parsed);
    scheme := SchemeOfParts(WithoutLeadingControls(raw), parsed);
  }

  lemma Assembled(raw: string, controls: string, scheme: string, host: string, port: string)
    requires raw == controls + (scheme + "://" + (host + port))
    requires (forall c :: c in controls ==> c <= ' ') && (forall c :: c in raw ==> !IsSpace(c))
    requires DefaultPort(Lower(scheme)).Some?
    requires IsOriginHost(host) && IsOriginPort(port, DefaultPort(Lower(scheme)).value)
    ensures IsOriginText(raw, controls, scheme, host, port)
  {
    assert forall c :: c in controls ==> c in raw;
  }

  lemma AcceptedHost(raw: string, parsed: Url, host: string)
    requires PartsAccepted(raw, parsed) && '\n' !in UrlHostname(parsed).value && host == Until(parsed.netloc, {':'})
    ensures IsOriginHost(host)
  {
    HostnameIs(parsed, host);
    HostShape(host);
  }

  lemma AcceptedPort(raw: string, parsed: Url, host: string, port: string)
    requires PartsAccepted(raw, parsed) && host == Until(parsed.netloc, {':'}) && parsed.netloc == host + port
    ensures DefaultPort(parsed.scheme).Some? && IsOriginPort(port, DefaultPort(parsed.scheme).value)
  {
    PortShape(host, port, DefaultPort(parsed.scheme).value);
  }

  lemma CutAtColon(netloc: string) returns (host: string, port: string)
    ensures netloc == host + port && host == Until(netloc, {':'})
  {
    host := Until(netloc, {':'});
    port := netloc[|host|..];
  }

  lemma HostAndPortOf(raw: string, parsed: Url) returns (host: string, port: string)
    requires PartsAccepted(raw, parsed) && '\n' !in UrlHostname(parsed).value
    ensures parsed.netloc == host + port && DefaultPort(parsed.scheme).Some?
    ensures IsOriginHost(host) && IsOriginPort(port, DefaultPort(parsed.scheme).value)
  {
    host, port := CutAtColon(parsed.netloc);
    AcceptedHost(raw, parsed, host);
    AcceptedPort(raw, parsed, host, port);
  }

  lemma AcceptedLacksBlanks(value: string)
    requires ParseOrigin(value).Some?
    ensures forall c :: c in Strip(value) ==> !IsSpace(c)
  {
  }

  /** Whatever is accepted is such a text. */
  lemma OriginIsText(value: string) returns (controls: string, scheme: string, host: string, port: string)
    requires ParseOrigin(value).Some?
    ensures IsOriginText(Strip(value), controls, scheme, host, port)
  {
    AcceptedParts(value);
    AcceptedLacksBlanks(value);
    HostLacksNewline(Strip(value), UrlHostname(UrlSplit(Strip(value))).value);
    controls := ControlsTaken(Strip(value));
    scheme := PartsOfText(Strip(value));
    host, port := HostAndPortOf(Strip(value), UrlSplit(Strip(value)));
    Assembled(Strip(value), controls, scheme, host, port);
  }

  ghost predicate IsOrigin(raw: string) {
    exists controls, scheme, host, port :: IsOriginText(raw, controls, scheme, host, port)
  }

  lemma AcceptedIsOrigin(value: string)
    requires ParseOrigin(value).Some?
    ensures IsOrigin(Strip(value))
  {
    var controls, scheme, host, port := OriginIsText(value);
  }

  lemma OriginIsAccepted(value: string)
    requires IsOrigin(Strip(value))
    ensures ParseOrigin(value).Some?
  {
    var controls, scheme, host, port :| IsOriginText(Strip(value), controls, scheme, host, port);
    TextIsOrigin(value, controls, scheme, host, port);
  }

  /** A value is accepted exactly when, but for padding, it is such a text. */
  lemma ParseOriginIff(value: string)
    ensures ParseOrigin(value).Some? <==> IsOrigin(Strip(value))
  {
    if ParseOrigin(value).Some? {
      AcceptedIsOrigin(value);
    }
    if IsOrigin(Strip(value)) {
      OriginIsAccepted(value);
    }
  }
}
