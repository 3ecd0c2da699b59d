/**
 What the planner's next decision asks for, on the decision's own parameters: which URLs of which
 open ports, seeds, hosts and observed services, in which order, and when it asks for nothing.
 */
module PlannerTargets {
  import opened Wrappers
  import opened Text
  import opened Hostnames
  import opened Targets
  import opened AgentRuntime
  import opened PipelinePlanning

  // ----- the first distinct values ---------------------------------------

  /** A capped collection holds gathered values, each once, and all of them unless it is full. */
  lemma FirstDistinct<T>(xs: seq<T>, f: T -> seq<string>, n: nat)
    ensures var r := CapTo(Distinct(Gather(xs, f)), n);
            && |r| <= n && AllDistinct(r)
            && (forall v :: v in r ==> exists x :: x in xs && v in f(x))
            && (|r| < n ==> forall x, v :: x in xs && v in f(x) ==> v in r)
  {
    var all := Gather(xs, f);
    var r := CapTo(Distinct(all), n);
    DistinctMembers(all);
    CapMembers(Distinct(all), n);
    forall v ensures v in all <==> exists x :: x in xs && v in f(x) {
      GatherIn(xs, f, v);
    }
  }

  lemma CapMembers(all: seq<string>, n: nat)
    ensures var r := CapTo(all, n);
            (forall u :: u in r ==> u in all) && (|r| < n ==> r == all) && (AllDistinct(all) ==> AllDistinct(r))
  {
  }

  /** Later elements never displace what earlier ones yielded. */
  lemma EarlierComeFirst<T>(xs: seq<T>, k: nat, f: T -> seq<string>, n: nat)
    requires k <= |xs|
    ensures CapTo(Distinct(Gather(xs[..k], f)), n) <= CapTo(Distinct(Gather(xs, f)), n)
  {
    GatherGrows(xs, k, f);
    var a, b := Gather(xs[..k], f), Gather(xs, f);
    assert b[..|a|] == a;
    DistinctGrows(b, |a|);
  }

  // ----- URLs of open ports ----------------------------------------------

  /** Some result so far says that the port is open at the address. */
  ghost predicate OpenPort(observations: seq<Observation>, ip: string, port: int) {
    exists o :: o in observations && OpenIn(o.data.hosts, ip, port)
  }

  ghost predicate OpenIn(hosts: seq<NmapHost>, ip: string, port: int) {
    ip != "" && exists h :: h in hosts && h.ip == Some(ip) && NmapPort(true, Some(port)) in h.ports
  }

  /** https on port 443, http on every other port. */
  ghost predicate IsPortUrl(url: string, ip: string, port: int) {
    if port == 443 then url == "https://" + ip + ":443"
    else if port >= 0 then url == "http://" + ip + ":" + Digits(port)
    else url == "http://" + ip + ":-" + Digits(-port)
  }

  lemma PortUrlMeans(ip: string, port: int)
    ensures forall url :: url == PortUrl(ip, port) <==> IsPortUrl(url, ip, port)
  {
    assert Digits(443) == "443" by {
      assert Digits(4) == "4" && Digits(44) == "44";
    }
    if port == 443 {
      assert "https" + "://" + ip + ":" + "443" == "https://" + ip + ":443";
    } else if port >= 0 {
      assert "http" + "://" + ip + ":" + Digits(port) == "http://" + ip + ":" + Digits(port);
    } else {
      assert "http" + "://" + ip + ":" + ("-" + Digits(-port)) == "http://" + ip + ":-" + Digits(-port);
    }
  }

  lemma HostUrlsMean(host: NmapHost, url: string)
    ensures url in HostUrls(host) <==>
            exists port: int :: host.ip.Some? && OpenIn([host], host.ip.value, port) && IsPortUrl(url, host.ip.value, port)
  {
    if host.ip.Some? && host.ip.value != "" {
      var ip := host.ip.value;
      GatherIn(host.ports, PortUrls(ip), url);
      if p :| p in host.ports && url in PortUrls(ip)(p) {
        PortUrlMeans(ip, p.port.value);
        assert p == NmapPort(true, Some(p.port.value));
        assert OpenIn([host], ip, p.port.value);
      }
      if port: int :| OpenIn([host], ip, port) && IsPortUrl(url, ip, port) {
        PortUrlMeans(ip, port);
        var p := NmapPort(true, Some(port));
        assert p in host.ports && url in PortUrls(ip)(p);
      }
    }
  }

  lemma ObservedUrlsMean(o: Observation, url: string)
    ensures url in ObservedUrls(o) <==>
            exists ip: string, port: int :: OpenIn(o.data.hosts, ip, port) && IsPortUrl(url, ip, port)
  {
    GatherIn(o.data.hosts, HostUrls, url);
    if h :| h in o.data.hosts && url in HostUrls(h) {
      HostUrlsMean(h, url);
      var port: int :| OpenIn([h], h.ip.value, port) && IsPortUrl(url, h.ip.value, port);
      assert OpenIn(o.data.hosts, h.ip.value, port);
    }
    if ip: string, port: int :| OpenIn(o.data.hosts, ip, port) && IsPortUrl(url, ip, port) {
      var h :| h in o.data.hosts && h.ip == Some(ip) && NmapPort(true, Some(port)) in h.ports;
      assert OpenIn([h], ip, port);
      HostUrlsMean(h, url);
    }
  }

  /**
   The URLs of open ports: each is https at 443 or http at another port that some result reports
   open, and with fewer than ten of them every open port of every result has its URL.
   */
  lemma NmapUrlsMean(observations: seq<Observation>)
    ensures var urls := NmapHttpUrls(observations);
            && |urls| <= 10 && AllDistinct(urls)
            && (forall u :: u in urls ==>
                  exists ip: string, port: int :: OpenPort(observations, ip, port) && IsPortUrl(u, ip, port))
            && (|urls| < 10 ==>
                  forall ip: string, port: int, u :: OpenPort(observations, ip, port) && IsPortUrl(u, ip, port) ==> u in urls)
    ensures NmapHttpUrls(observations) == [] <==> !exists ip: string, port: int :: OpenPort(observations, ip, port)
  {
    var urls := NmapHttpUrls(observations);
    FirstDistinct(observations, ObservedUrls, 10);
    forall u | u in urls ensures exists ip: string, port: int :: OpenPort(observations, ip, port) && IsPortUrl(u, ip, port) {
      var o :| o in observations && u in ObservedUrls(o);
      ObservedUrlsMean(o, u);
      var ip: string, port: int :| OpenIn(o.data.hosts, ip, port) && IsPortUrl(u, ip, port);
      assert OpenPort(observations, ip, port);
    }
    forall ip: string, port: int, u | |urls| < 10 && OpenPort(observations, ip, port) && IsPortUrl(u, ip, port)
      ensures u in urls
    {
      var o :| o in observations && OpenIn(o.data.hosts, ip, port);
      ObservedUrlsMean(o, u);
    }
    if ip: string, port: int :| OpenPort(observations, ip, port) {
      PortUrlMeans(ip, port);
      assert IsPortUrl(PortUrl(ip, port), ip, port);
      assert |urls| < 10 ==> PortUrl(ip, port) in urls;
    }
    if urls != [] {
      assert urls[0] in urls;
    }
  }

  /** The URLs that a run asked for first stay in front, whatever is observed later. */
  lemma NmapUrlsGrow(observations: seq<Observation>, k: nat)
    requires k <= |observations|
    ensures NmapHttpUrls(observations[..k]) <= NmapHttpUrls(observations)
  {
    EarlierComeFirst(observations, k, ObservedUrls, 10);
  }

  // ----- seeds and hosts of the snapshot ---------------------------------

  /** The URL entries of the snapshot with a web scheme, verbatim. */
  ghost predicate IsSeed(snapshot: seq<ScopeEntry>, url: string) {
    Entry(UrlEntry, url) in snapshot && ("http://" <= url || "https://" <= url)
  }

  lemma SeedsMean(snapshot: seq<ScopeEntry>)
    ensures var seeds := WebSeeds(snapshot);
            && |seeds| <= 10 && AllDistinct(seeds)
            && (forall u :: u in seeds ==> IsSeed(snapshot, u))
            && (|seeds| < 10 ==> forall u :: IsSeed(snapshot, u) ==> u in seeds)
  {
    FirstDistinct(snapshot, SeedOf, 10);
    forall u | u in WebSeeds(snapshot) ensures IsSeed(snapshot, u) {
      var e :| e in snapshot && u in SeedOf(e);
      assert e == Entry(UrlEntry, u);
    }
    forall u | IsSeed(snapshot, u) && |WebSeeds(snapshot)| < 10 ensures u in WebSeeds(snapshot) {
      assert u in SeedOf(Entry(UrlEntry, u));
    }
  }

  /** The non-empty host form of a host or URL entry. */
  ghost predicate IsHost(snapshot: seq<ScopeEntry>, host: string) {
    host != "" && exists v :: (Entry(HostEntry, v) in snapshot || Entry(UrlEntry, v) in snapshot) && NormalizeTarget(v) == host
  }

  lemma HostsMean(snapshot: seq<ScopeEntry>)
    ensures var hosts := PipelineHosts(snapshot);
            && |hosts| <= 10 && AllDistinct(hosts)
            && (forall h :: h in hosts ==> IsHost(snapshot, h))
            && (|hosts| < 10 ==> forall h :: IsHost(snapshot, h) ==> h in hosts)
  {
    FirstDistinct(snapshot, HostFormOf, 10);
    forall h ensures IsHost(snapshot, h) <==> exists e :: e in snapshot && h in HostFormOf(e) {
      HostMeans(snapshot, h);
    }
  }

  lemma HostMeans(snapshot: seq<ScopeEntry>, h: string)
    ensures IsHost(snapshot, h) <==> exists e :: e in snapshot && h in HostFormOf(e)
  {
    if e :| e in snapshot && h in HostFormOf(e) {
      assert e == Entry(HostEntry, e.value) || e == Entry(UrlEntry, e.value);
    }
    if v :| h != "" && (Entry(HostEntry, v) in snapshot || Entry(UrlEntry, v) in snapshot) && NormalizeTarget(v) == h {
      assert h in HostFormOf(Entry(HostEntry, v)) && h in HostFormOf(Entry(UrlEntry, v));
    }
  }

  // ----- promoted hosts --------------------------------------------------

  /** A name below the snapshot, in normal form, that some promoted host normalizes to. */
  ghost predicate SurvivesSanitizing(hosts: seq<string>, parents: seq<string>, name: string) {
    && (exists h :: h in hosts && NormalizeHostname(h) == Some(name))
    && (exists p :: p in parents && IsWithinDomain(name, p))
  }

  lemma SanitizedMeans(hosts: seq<string>, parents: seq<string>)
    ensures var r := Sanitized(hosts, parents);
            && |r| <= 50 && StrictlySorted(r)
            && (forall name :: name in r ==> SurvivesSanitizing(hosts, parents, name))
            && (|r| < 50 ==> forall name :: SurvivesSanitizing(hosts, parents, name) ==> name in r)
  {
    var f := PromotedOf(parents);
    FirstDistinct(hosts, f, 50);
    forall name ensures SurvivesSanitizing(hosts, parents, name) <==> exists h :: h in hosts && name in f(h) {
      SurvivorMeans(hosts, parents, name);
    }
    SortedMeans(CapTo(Distinct(Gather(hosts, f)), 50));
  }

  lemma SurvivorMeans(hosts: seq<string>, parents: seq<string>, name: string)
    ensures SurvivesSanitizing(hosts, parents, name) <==> exists h :: h in hosts && name in PromotedOf(parents)(h)
  {
    if SurvivesSanitizing(hosts, parents, name) {
      var h :| h in hosts && NormalizeHostname(h) == Some(name);
      assert name in PromotedOf(parents)(h);
    }
    if h :| h in hosts && name in PromotedOf(parents)(h) {
      assert NormalizeHostname(h) == Some(name);
    }
  }

  lemma SortedMeans(kept: seq<string>)
    requires AllDistinct(kept)
    ensures StrictlySorted(Sorted(kept)) && |Sorted(kept)| == |kept|
    ensures forall name :: name in Sorted(kept) <==> name in kept
  {
    SortedIsSorted(kept);
    SortedLength(kept);
    forall name ensures name in Sorted(kept) <==> name in kept {
      assert name in Elements(Sorted(kept)) <==> name in Elements(kept);
    }
  }

  /** Sorting a list without repetitions keeps its length. */
  lemma {:induction false} SortedLength(xs: seq<string>)
    requires AllDistinct(xs)
    ensures |Sorted(xs)| == |xs|
  {
    if xs != [] {
      var n := |xs| - 1;
      SortedLength(xs[..n]);
      assert xs[n] !in xs[..n];
      assert xs[n] !in Elements(Sorted(xs[..n]));
      InsertLength(xs[n], Sorted(xs[..n]));
    }
  }

  lemma {:induction false} InsertLength(x: string, s: seq<string>)
    requires x !in s
    ensures |Insert(x, s)| == |s| + 1
  {
    if s != [] && !Less(x, s[0]) {
      InsertLength(x, s[1..]);
    }
  }

  // ----- observed services -----------------------------------------------

  /** The URL a service is known by: the requested one, else the final one. */
  ghost predicate Shows(s: HttpService, url: string) {
    && url != ""
    && (s.url == Some(url) || ((s.url == None || s.url == Some("")) && s.finalUrl == Some(url)))
  }

  lemma ServiceUrlMeans(s: HttpService, url: string)
    ensures ServiceUrl(s) == Some(url) <==> Shows(s, url)
  {
  }

  /** The first service that shows the URL. */
  ghost predicate FirstSighting(services: seq<HttpService>, i: nat, url: string) {
    i < |services| && Shows(services[i], url) && NoneShows(services[..i], url)
  }

  ghost predicate NoneShows(services: seq<HttpService>, url: string) {
    forall s :: s in services ==> !Shows(s, url)
  }

  ghost predicate Answers2xx(s: HttpService) {
    s.statusCode.Some? && 200 <= s.statusCode.value <= 299
  }

  ghost predicate FirstAnswers(services: seq<HttpService>, url: string, success: bool) {
    exists i :: 0 <= i < |services| && FirstSighting(services, i, url) && Answers2xx(services[i]) == success
  }

  lemma FirstSightingSnoc(services: seq<HttpService>, s: HttpService, url: string, success: bool)
    ensures FirstAnswers(services + [s], url, success) <==>
              || FirstAnswers(services, url, success)
              || (Shows(s, url) && Answers2xx(s) == success && NoneShows(services, url))
  {
    var all := services + [s];
    assert all[..|services|] == services;
    if FirstAnswers(services, url, success) {
      var i :| 0 <= i < |services| && FirstSighting(services, i, url) && Answers2xx(services[i]) == success;
      assert all[..i] == services[..i] && all[i] == services[i];
      assert FirstSighting(all, i, url);
    }
    if Shows(s, url) && Answers2xx(s) == success && NoneShows(services, url) {
      assert all[|services|] == s && FirstSighting(all, |services|, url);
    }
    if FirstAnswers(all, url, success) {
      var i :| 0 <= i < |all| && FirstSighting(all, i, url) && Answers2xx(all[i]) == success;
      if i < |services| {
        assert all[..i] == services[..i] && all[i] == services[i];
        assert FirstSighting(services, i, url);
      }
    }
  }

  lemma SeenBefore(services: seq<HttpService>, url: string)
    ensures !NoneShows(services, url) <==>
              FirstAnswers(services, url, true) || FirstAnswers(services, url, false)
  {
    if !NoneShows(services, url) {
      var t :| t in services && Shows(t, url);
      var k :| 0 <= k < |services| && services[k] == t;
      var i := FirstAt(services, url, k);
      assert FirstAnswers(services, url, Answers2xx(services[i]));
    }
  }

  lemma {:induction false} FirstAt(services: seq<HttpService>, url: string, k: nat) returns (i: nat)
    requires k < |services| && Shows(services[k], url)
    ensures FirstSighting(services, i, url)
  {
    if NoneShows(services[..k], url) {
      i := k;
    } else {
      var t :| t in services[..k] && Shows(t, url);
      var j :| 0 <= j < k && services[j] == t;
      i := FirstAt(services, url, j);
    }
  }

  /** The two lists: URLs by the status of their first sighting, each once. */
  lemma {:induction false} SplitMeans(services: seq<HttpService>)
    ensures var (ok, other) := SplitByStatus(services);
            && (forall u :: u in ok <==> FirstAnswers(services, u, true))
            && (forall u :: u in other <==> FirstAnswers(services, u, false))
            && AllDistinct(ok + other)
  {
    if services != [] {
      var n := |services| - 1;
      var before, s := services[..n], services[n];
      assert services == before + [s];
      SplitMeans(before);
      var (ok, other) := SplitByStatus(before);
      var (ok', other') := SplitByStatus(services);
      forall u ensures u in ok' <==> FirstAnswers(services, u, true) {
        SplitOne(before, s, u);
      }
      forall u ensures u in other' <==> FirstAnswers(services, u, false) {
        SplitOne(before, s, u);
      }
      if ServiceUrl(s).Some? && ServiceUrl(s).value !in ok && ServiceUrl(s).value !in other {
        DistinctWith(ok, other, ServiceUrl(s).value);
      }
    }
  }

  lemma Apart(a: seq<string>, b: seq<string>)
    requires AllDistinct(a + b)
    ensures AllDistinct(a) && AllDistinct(b) && forall x :: x in a ==> x !in b
  {
    assert forall i :: 0 <= i < |a| ==> (a + b)[i] == a[i];
    assert forall j :: 0 <= j < |b| ==> (a + b)[|a| + j] == b[j];
  }

  lemma Together(a: seq<string>, b: seq<string>)
    requires AllDistinct(a) && AllDistinct(b) && forall x :: x in a ==> x !in b
    ensures AllDistinct(a + b)
  {
    forall i, j | 0 <= i < j < |a + b| ensures (a + b)[i] != (a + b)[j] {
      if i < |a| <= j {
        assert (a + b)[i] in a && (a + b)[j] in b;
      }
    }
  }

  lemma DistinctWith(ok: seq<string>, other: seq<string>, u: string)
    requires AllDistinct(ok + other) && u !in ok && u !in other
    ensures AllDistinct(ok + [u] + other) && AllDistinct(ok + (other + [u]))
  {
    Apart(ok, other);
    Together(ok + [u], other);
    Together(ok, other + [u]);
  }

  lemma SplitOne(before: seq<HttpService>, s: HttpService, u: string)
    requires var (ok, other) := SplitByStatus(before);
             (u in ok <==> FirstAnswers(before, u, true)) && (u in other <==> FirstAnswers(before, u, false))
    requires ServiceUrl(s).Some? ==>
               var (ok, other) := SplitByStatus(before);
               var v := ServiceUrl(s).value;
               (v in ok <==> FirstAnswers(before, v, true)) && (v in other <==> FirstAnswers(before, v, false))
    ensures var (ok, other) := SplitByStatus(before + [s]);
            && (u in ok <==> FirstAnswers(before + [s], u, true))
            && (u in other <==> FirstAnswers(before + [s], u, false))
  {
    SplitSnoc(before, s);
    FirstSightingSnoc(before, s, u, true);
    FirstSightingSnoc(before, s, u, false);
    SeenBefore(before, u);
    ServiceUrlMeans(s, u);
  }

  /** The services of all observations, one after the other. */
  lemma ServicesInOrder(observations: seq<Observation>, o: Observation)
    ensures AllServices([]) == [] && AllServices(observations + [o]) == AllServices(observations) + o.data.services
  {
    assert (observations + [o])[..|observations|] == observations;
  }

  lemma ServiceObserved(observations: seq<Observation>, s: HttpService)
    ensures s in AllServices(observations) <==> exists o :: o in observations && s in o.data.services
  {
    GatherIn(observations, ServicesOf, s);
  }

  /**
   The URLs for nuclei: observed by httpx, each once, those whose first sighting answered 2xx
   before all others, and with fewer than ten of them every observed URL.
   */
  lemma HttpxUrlsMean(observations: seq<Observation>)
    ensures var urls, services := HttpxUrls(observations), AllServices(observations);
            && |urls| <= 10 && AllDistinct(urls)
            && (forall u :: u in urls ==> exists o, s :: o in observations && s in o.data.services && Shows(s, u))
            && (|urls| < 10 ==> forall o, s, u :: o in observations && s in o.data.services && Shows(s, u) ==> u in urls)
            && (forall i, j :: 0 <= i < j < |urls| && FirstAnswers(services, urls[j], true) ==>
                  FirstAnswers(services, urls[i], true))
  {
    var urls, services := HttpxUrls(observations), AllServices(observations);
    var (ok, other) := SplitByStatus(services);
    SplitMeans(services);
    forall u | u in urls ensures exists o, s :: o in observations && s in o.data.services && Shows(s, u) {
      SeenBefore(services, u);
      var s :| s in services && Shows(s, u);
      ServiceObserved(observations, s);
    }
    forall o, s, u | |urls| < 10 && o in observations && s in o.data.services && Shows(s, u) ensures u in urls {
      ServiceObserved(observations, s);
      SeenBefore(services, u);
      assert urls == ok + other;
    }
    OkFirst(ok, other, 10);
    forall i, j | 0 <= i < j < |urls| && FirstAnswers(services, urls[j], true)
      ensures FirstAnswers(services, urls[i], true)
    {
      assert urls[j] in ok;
    }
  }

  lemma OkFirst(ok: seq<string>, other: seq<string>, n: nat)
    requires AllDistinct(ok + other)
    ensures var urls := CapTo(ok + other, n);
            forall i, j :: 0 <= i < j < |urls| && urls[j] in ok ==> urls[i] in ok
  {
    Apart(ok, other);
    assert forall j :: |ok| <= j < |ok + other| ==> (ok + other)[j] in other;
  }

  // ----- the httpx targets -----------------------------------------------

  /** The original targets come first and complete; promoted hosts fill up to ten. */
  lemma MergedMeans(base: seq<string>, promoted: seq<string>)
    requires AllDistinct(base) && |base| <= 10 && "" !in base && "" !in promoted
    ensures var r := MergedTargets(base, promoted);
            && base <= r && |r| <= 10 && AllDistinct(r)
            && (forall u :: u in r ==> u in base || u in promoted)
            && (|r| < 10 ==> forall u :: u in promoted ==> u in r)
  {
    NothingEmpty(base + promoted);
    MergedPrefix(base, promoted);
    DistinctMembers(base + promoted);
    CapMembers(Distinct(base + promoted), 10);
  }

  lemma NothingEmpty(urls: seq<string>)
    requires "" !in urls
    ensures Gather(urls, NonEmptyUrl) == urls
  {
    GatherSingletons(urls, NonEmptyUrl, urls);
  }

  lemma MergedPrefix(base: seq<string>, promoted: seq<string>)
    requires AllDistinct(base) && |base| <= 10
    ensures base <= CapTo(Distinct(base + promoted), 10)
  {
    DistinctFixed(base);
    assert (base + promoted)[..|base|] == base;
    DistinctGrows(base + promoted, |base|);
  }

  /** The targets of httpx before promoted hosts join: open ports, else seeds, else plain hosts. */
  ghost predicate IsBaseUrl(p: Planner, observations: seq<Observation>, url: string) {
    if exists ip: string, port: int :: OpenPort(observations, ip, port) then
      exists ip: string, port: int :: OpenPort(observations, ip, port) && IsPortUrl(url, ip, port)
    else if exists u :: IsSeed(p.snapshot, u) then IsSeed(p.snapshot, url)
    else exists h :: h in p.hosts && url == "http://" + h
  }

  lemma BaseUrlsMean(p: Planner, observations: seq<Observation>)
    requires p.hosts == PipelineHosts(p.snapshot)
    ensures var base := FirstNonEmpty(NmapHttpUrls(observations), WebSeeds(p.snapshot), PlainUrls(p.hosts));
            && AllDistinct(base) && |base| <= 10 && "" !in base
            && (forall u :: u in base ==> IsBaseUrl(p, observations, u))
            && (|base| < 10 ==> forall u :: IsBaseUrl(p, observations, u) ==> u in base)
  {
    NmapUrlsMean(observations);
    NoSeedsMeans(p.snapshot);
    HostsMean(p.snapshot);
    PlainUrlsMean(p.hosts);
    if ip: string, port: int :| OpenPort(observations, ip, port) {
      PortUrlsNonEmpty(observations);
    } else if WebSeeds(p.snapshot) == [] {
      assert forall u :: u in PlainUrls(p.hosts) <==> IsBaseUrl(p, observations, u);
    }
  }

  lemma PortUrlsNonEmpty(observations: seq<Observation>)
    ensures "" !in NmapHttpUrls(observations)
  {
    NmapUrlsMean(observations);
    forall u | u in NmapHttpUrls(observations) ensures u != "" {
      var ip: string, port: int :| OpenPort(observations, ip, port) && IsPortUrl(u, ip, port);
    }
  }

  lemma NoSeedsMeans(snapshot: seq<ScopeEntry>)
    ensures WebSeeds(snapshot) == [] <==> !exists u :: IsSeed(snapshot, u)
    ensures var seeds := WebSeeds(snapshot);
            && |seeds| <= 10 && AllDistinct(seeds) && "" !in seeds
            && (forall u :: u in seeds ==> IsSeed(snapshot, u))
            && (|seeds| < 10 ==> forall u :: IsSeed(snapshot, u) ==> u in seeds)
  {
    SeedsMean(snapshot);
    if WebSeeds(snapshot) != [] {
      assert WebSeeds(snapshot)[0] in WebSeeds(snapshot);
    }
  }

  lemma PlainUrlsMean(hosts: seq<string>)
    requires AllDistinct(hosts)
    ensures AllDistinct(PlainUrls(hosts)) && |PlainUrls(hosts)| == |hosts| && "" !in PlainUrls(hosts)
    ensures forall u :: u in PlainUrls(hosts) <==> exists h :: h in hosts && u == "http://" + h
  {
    var urls := PlainUrls(hosts);
    forall i, j | 0 <= i < j < |urls| ensures urls[i] != urls[j] {
      assert urls[i][7..] == hosts[i] && urls[j][7..] == hosts[j];
    }
    forall h | h in hosts ensures "http://" + h in urls {
      var i :| 0 <= i < |hosts| && hosts[i] == h;
      assert urls[i] == "http://" + h;
    }
  }

  // ----- coverage --------------------------------------------------------

  /** An nmap result names the host, or nmap was proposed for it, accepted or not. */
  ghost predicate AlreadyTried(s: AgentState, host: string) {
    || (exists o :: o in s.observations && NamesHost(o, host))
    || (exists r :: r in s.steps && ProposesHost(r.decision, host))
  }

  ghost predicate NamesHost(o: Observation, host: string) {
    o.tool == Some("nmap") && o.data.target.Some? && o.data.target.value != "" && Lower(o.data.target.value) == host
  }

  ghost predicate ProposesHost(d: Decision, host: string) {
    && d.ToolCall? && d.tool == "nmap" && "target" in d.params && d.params["target"].JStr?
    && host != "" && NormalizeTarget(d.params["target"].s) == host
  }

  lemma {:induction false} ResultsCover(observations: seq<Observation>, host: string)
    ensures host in CoveredByResults(observations) <==> exists o :: o in observations && NamesHost(o, host)
  {
    if observations != [] {
      var n := |observations| - 1;
      assert observations == observations[..n] + [observations[n]];
      ResultsCover(observations[..n], host);
      assert host in CoveredByResult(observations[n]) <==> NamesHost(observations[n], host);
    }
  }

  lemma {:induction false} ProposalsCover(steps: seq<StepRecord>, host: string)
    ensures host in CoveredByDecisions(steps) <==> exists r :: r in steps && ProposesHost(r.decision, host)
  {
    if steps != [] {
      var n := |steps| - 1;
      assert steps == steps[..n] + [steps[n]];
      ProposalsCover(steps[..n], host);
      assert host in CoveredByDecision(steps[n].decision) <==> ProposesHost(steps[n].decision, host);
    }
  }

  lemma CoveredMeans(s: AgentState)
    ensures forall h :: h in Covered(s) <==> AlreadyTried(s, h)
  {
    forall h ensures h in Covered(s) <==> AlreadyTried(s, h) {
      ResultsCover(s.observations, h);
      ProposalsCover(s.steps, h);
    }
  }

  lemma LeftOne(first: string, rest: seq<string>, covered: set<string>)
    requires first !in rest
    ensures |Elements([first] + rest) - covered| == (if first in covered then 0 else 1) + |Elements(rest) - covered|
  {
    ElementsConcat([first], rest);
    if first in covered {
      assert Elements([first] + rest) - covered == Elements(rest) - covered;
    } else {
      assert Elements([first] + rest) - covered == {first} + (Elements(rest) - covered);
    }
  }

  /** What is left of a list is counted once each. */
  lemma {:induction false} WithoutCounts(hosts: seq<string>, covered: set<string>)
    requires AllDistinct(hosts)
    ensures |Without(hosts, covered)| == |Elements(hosts) - covered|
  {
    if hosts == [] {
      assert Elements(hosts) - covered == {};
    } else {
      assert hosts == [hosts[0]] + hosts[1..];
      WithoutCounts(hosts[1..], covered);
      LeftOne(hosts[0], hosts[1..], covered);
    }
  }

  lemma {:induction false} WithoutFirst(hosts: seq<string>, covered: set<string>)
    requires Without(hosts, covered) != []
    ensures FirstLeft(hosts, covered, Without(hosts, covered)[0])
  {
    if hosts[0] in covered {
      WithoutFirst(hosts[1..], covered);
      FirstLeftAfter(hosts, covered, Without(hosts[1..], covered)[0]);
    } else {
      assert FirstLeftAt(hosts, covered, 0);
    }
  }

  ghost predicate FirstLeftAt(hosts: seq<string>, covered: set<string>, i: nat)
    requires i < |hosts|
  {
    hosts[i] !in covered && forall j :: 0 <= j < i ==> hosts[j] in covered
  }

  /** The first host of the list that is not covered. */
  ghost predicate FirstLeft(hosts: seq<string>, covered: set<string>, host: string) {
    exists i :: 0 <= i < |hosts| && FirstLeftAt(hosts, covered, i) && hosts[i] == host
  }

  lemma FirstLeftAfter(hosts: seq<string>, covered: set<string>, host: string)
    requires hosts != [] && hosts[0] in covered && FirstLeft(hosts[1..], covered, host)
    ensures FirstLeft(hosts, covered, host)
  {
    var i :| 0 <= i < |hosts[1..]| && FirstLeftAt(hosts[1..], covered, i) && hosts[1..][i] == host;
    forall j | 0 <= j < i + 1 ensures hosts[j] in covered {
      if j > 0 {
        assert hosts[j] == hosts[1..][j - 1];
      }
    }
    assert FirstLeftAt(hosts, covered, i + 1);
  }

  // ----- the decision ----------------------------------------------------

  /** Some observation so far, of whatever outcome, is of the tool. */
  ghost predicate Attempted(s: AgentState, tool: string) {
    exists o :: o in s.observations && o.tool == Some(tool)
  }

  /** The hosts that nmap is still owed. */
  ghost function Owed(p: Planner, s: AgentState): set<string> {
    if p.profile == Web then {} else set h | h in p.hosts && !AlreadyTried(s, h)
  }

  /** The probe stages that are still owed: httpx in every profile, nuclei in all but recon. */
  ghost function ProbesOwed(p: Planner, s: AgentState): nat {
    (if Attempted(s, "httpx") then 0 else 1) + (if p.profile == Recon || Attempted(s, "nuclei") then 0 else 1)
  }

  lemma DoneMeans(s: AgentState, tool: string)
    requires tool != ""
    ensures tool in DoneTools(s.observations) <==> Attempted(s, tool)
  {
  }

  lemma OwedMeans(p: Planner, s: AgentState)
    requires p.hosts == PipelineHosts(p.snapshot)
    ensures |PendingHosts(p, s)| == |Owed(p, s)| && |PendingProbes(p, s)| == ProbesOwed(p, s)
    ensures PendingHosts(p, s) != [] ==> FirstLeft(p.hosts, Covered(s), PendingHosts(p, s)[0])
    ensures PendingProbes(p, s) != [] ==>
              PendingProbes(p, s)[0] == if Attempted(s, "httpx") then "nuclei" else "httpx"
  {
    HostsMean(p.snapshot);
    CoveredMeans(s);
    DoneMeans(s, "httpx");
    DoneMeans(s, "nuclei");
    if p.profile != Web {
      WithoutCounts(p.hosts, Covered(s));
      assert Owed(p, s) == Elements(p.hosts) - Covered(s);
      if PendingHosts(p, s) != [] {
        WithoutFirst(p.hosts, Covered(s));
      }
    }
  }

  /** The next host in snapshot order that nmap was not tried on. */
  ghost predicate NextHost(p: Planner, s: AgentState, host: string) {
    exists i :: 0 <= i < |p.hosts| && IsNext(p, s, i) && p.hosts[i] == host
  }

  ghost predicate IsNext(p: Planner, s: AgentState, i: nat)
    requires i < |p.hosts|
  {
    !AlreadyTried(s, p.hosts[i]) && forall j :: 0 <= j < i ==> AlreadyTried(s, p.hosts[j])
  }

  /** Three profiles by name, and the full one for every other name. */
  lemma ProfilesMean(name: string)
    ensures ProfileNamed(name) == Recon <==> name == "recon"
    ensures ProfileNamed(name) == Web <==> name == "web"
  {
  }

  /**
   What the planner does next. It ends the run when there is nothing to scan, nothing left, or not
   enough budget for everything left; otherwise it takes the first host nmap is owed, then httpx,
   then nuclei.
   */
  lemma DecideMeans(p: Planner, s: AgentState)
    requires p.hosts == PipelineHosts(p.snapshot)
    ensures var d, left := Decide(p, s), |Owed(p, s)| + ProbesOwed(p, s);
            && (d.FinishRun? <==> (p.hosts == [] && p.discovered == []) || left == 0 || s.step + left + 1 > s.maxSteps)
            && (d.ToolCall? && Owed(p, s) != {} ==>
                  exists host :: NextHost(p, s, host)
                    && d == ToolCall("nmap", map["target" := JStr(host), "ports" := JStr("80,443,3000,8000,8080"),
                                                 "profile" := JStr("safe")]))
            && (d.ToolCall? && Owed(p, s) == {} ==>
                  && d.tool == (if Attempted(s, "httpx") then "nuclei" else "httpx")
                  && d.params.Keys == {"targets"} && d.params["targets"].JList?
                  && forall i :: 0 <= i < |d.params["targets"].items| ==> d.params["targets"].items[i].JStr?)
  {
    OwedMeans(p, s);
    if Decide(p, s).ToolCall? && PendingHosts(p, s) != [] {
      CoveredMeans(s);
      NextFromCovered(p, s, PendingHosts(p, s)[0]);
    }
  }

  lemma NextFromCovered(p: Planner, s: AgentState, host: string)
    requires FirstLeft(p.hosts, Covered(s), host) && forall h :: h in Covered(s) <==> AlreadyTried(s, h)
    ensures NextHost(p, s, host)
  {
    var i :| 0 <= i < |p.hosts| && FirstLeftAt(p.hosts, Covered(s), i) && p.hosts[i] == host;
    assert IsNext(p, s, i);
  }

  /**
   The targets of an httpx decision: URLs of open ports, or else seeds, or else plain hosts of the
   snapshot, before plain URLs of promoted hosts; ten at most, each once, and none left out below ten.
   */
  lemma HttpxDecision(p: Planner, s: AgentState)
    requires p.hosts == PipelineHosts(p.snapshot) && AllDistinct(p.discovered)
    requires Decide(p, s).ToolCall? && Decide(p, s).tool == "httpx"
    ensures "targets" in Decide(p, s).params && Decide(p, s).params["targets"].JList?
    ensures var items := Decide(p, s).params["targets"].items;
            && |items| <= 10
            && (forall i :: 0 <= i < |items| ==> items[i].JStr?)
            && (forall i :: 0 <= i < |items| ==>
                  || IsBaseUrl(p, s.observations, items[i].s)
                  || exists h :: h in p.discovered && items[i].s == "http://" + h)
            && (|items| < 10 ==>
                  && (forall u :: IsBaseUrl(p, s.observations, u) ==> JStr(u) in items)
                  && (forall h :: h in p.discovered ==> JStr("http://" + h) in items))
            && (forall i, j :: 0 <= i < j < |items| ==> items[i] != items[j])
            && (forall i, j :: 0 <= i < j < |items| && IsBaseUrl(p, s.observations, items[j].s) ==>
                  IsBaseUrl(p, s.observations, items[i].s))
  {
    ProbeDecided(p, s);
    HttpxTargetsMean(p, s.observations);
    Packed(ProbeTargets(p, "httpx", s.observations), p.discovered, BaseUrl(p, s.observations));
  }

  /** A probe decision carries the targets of its stage. */
  lemma ProbeDecided(p: Planner, s: AgentState)
    requires p.hosts == PipelineHosts(p.snapshot)
    requires Decide(p, s).ToolCall? && Decide(p, s).tool in {"httpx", "nuclei"}
    ensures Decide(p, s) == ProbeCall(Decide(p, s).tool, ProbeTargets(p, Decide(p, s).tool, s.observations))
  {
    OwedMeans(p, s);
  }

  ghost function BaseUrl(p: Planner, observations: seq<Observation>): string -> bool {
    u => IsBaseUrl(p, observations, u)
  }

  /** What holds of the URLs holds of the parameter they are passed in. */
  lemma Packed(urls: seq<string>, hosts: seq<string>, isBase: string -> bool)
    requires |urls| <= 10 && AllDistinct(urls)
    requires forall u :: u in urls ==> isBase(u) || exists h :: h in hosts && u == "http://" + h
    requires |urls| < 10 ==> (forall u :: isBase(u) ==> u in urls) && (forall h :: h in hosts ==> "http://" + h in urls)
    requires forall i, j :: 0 <= i < j < |urls| && isBase(urls[j]) ==> isBase(urls[i])
    ensures var items := Strings(urls);
            && |items| <= 10
            && (forall i :: 0 <= i < |items| ==> isBase(items[i].s) || exists h :: h in hosts && items[i].s == "http://" + h)
            && (|items| < 10 ==>
                  && (forall u :: isBase(u) ==> JStr(u) in items)
                  && (forall h :: h in hosts ==> JStr("http://" + h) in items))
            && (forall i, j :: 0 <= i < j < |items| ==> items[i] != items[j])
            && (forall i, j :: 0 <= i < j < |items| && isBase(items[j].s) ==> isBase(items[i].s))
  {
    StringsOf(urls);
  }

  lemma HttpxTargetsMean(p: Planner, observations: seq<Observation>)
    requires p.hosts == PipelineHosts(p.snapshot) && AllDistinct(p.discovered)
    ensures var urls := ProbeTargets(p, "httpx", observations);
            && |urls| <= 10 && AllDistinct(urls)
            && (forall u :: u in urls ==> IsBaseUrl(p, observations, u) || exists h :: h in p.discovered && u == "http://" + h)
            && (|urls| < 10 ==>
                  && (forall u :: IsBaseUrl(p, observations, u) ==> u in urls)
                  && (forall h :: h in p.discovered ==> "http://" + h in urls))
            && (forall i, j :: 0 <= i < j < |urls| && IsBaseUrl(p, observations, urls[j]) ==> IsBaseUrl(p, observations, urls[i]))
  {
    var base := FirstNonEmpty(NmapHttpUrls(observations), WebSeeds(p.snapshot), PlainUrls(p.hosts));
    BaseUrlsMean(p, observations);
    PlainUrlsMean(p.discovered);
    MergedMeans(base, PlainUrls(p.discovered));
    BaseFirst(base, MergedTargets(base, PlainUrls(p.discovered)), u => IsBaseUrl(p, observations, u));
  }

  /** The base comes first, as far as it goes. */
  lemma BaseFirst(base: seq<string>, urls: seq<string>, isBase: string -> bool)
    requires base <= urls && AllDistinct(urls) && |urls| <= 10
    requires (forall u :: u in base ==> isBase(u)) && (|base| < 10 ==> forall u :: isBase(u) ==> u in base)
    ensures forall i, j :: 0 <= i < j < |urls| && isBase(urls[j]) ==> isBase(urls[i])
  {
    forall i, j | 0 <= i < j < |urls| && isBase(urls[j]) ensures isBase(urls[i]) {
      BaseBefore(base, urls, i, j);
    }
  }

  lemma StringsOf(urls: seq<string>)
    ensures forall u :: JStr(u) in Strings(urls) <==> u in urls
  {
    forall u | u in urls ensures JStr(u) in Strings(urls) {
      var i :| 0 <= i < |urls| && urls[i] == u;
      assert Strings(urls)[i] == JStr(u);
    }
  }

  lemma BaseBefore(base: seq<string>, urls: seq<string>, i: nat, j: nat)
    requires base <= urls && AllDistinct(urls) && i < j < |urls|
    ensures urls[j] in base || |base| == |urls| ==> urls[i] in base
  {
    if urls[j] in base {
      var k :| 0 <= k < |base| && base[k] == urls[j];
      assert urls[k] == urls[j];
      assert base[i] == urls[i];
    }
  }

  /**
   The targets of a nuclei decision: the URLs that httpx observed, or else seeds, or else plain
   hosts of the snapshot. Promoted hosts take no part in it.
   */
  lemma NucleiDecision(p: Planner, s: AgentState)
    requires p.hosts == PipelineHosts(p.snapshot)
    requires Decide(p, s).ToolCall? && Decide(p, s).tool == "nuclei"
    ensures "targets" in Decide(p, s).params && Decide(p, s).params["targets"].JList?
    ensures var items, services := Decide(p, s).params["targets"].items, AllServices(s.observations);
            && |items| <= 10
            && (forall i :: 0 <= i < |items| ==> items[i].JStr?)
            && (forall i, j :: 0 <= i < j < |items| ==> items[i] != items[j])
            && (forall i :: 0 <= i < |items| ==> IsProbeUrl(p, s.observations, items[i].s))
            && (|items| < 10 ==> forall u :: IsProbeUrl(p, s.observations, u) ==> JStr(u) in items)
            && (forall i, j :: 0 <= i < j < |items| && FirstAnswers(services, items[j].s, true) ==>
                  FirstAnswers(services, items[i].s, true))
  {
    ProbeDecided(p, s);
    ProbeUrlsMean(p, s.observations);
    StringsOf(ProbeTargets(p, "nuclei", s.observations));
  }

  lemma ProbeUrlsMean(p: Planner, observations: seq<Observation>)
    requires p.hosts == PipelineHosts(p.snapshot)
    ensures var urls, services := ProbeTargets(p, "nuclei", observations), AllServices(observations);
            && |urls| <= 10 && AllDistinct(urls)
            && (forall u :: u in urls ==> IsProbeUrl(p, observations, u))
            && (|urls| < 10 ==> forall u :: IsProbeUrl(p, observations, u) ==> u in urls)
            && (forall i, j :: 0 <= i < j < |urls| && FirstAnswers(services, urls[j], true) ==>
                  FirstAnswers(services, urls[i], true))
  {
    HttpxUrlsMean(observations);
    NoServicesMeans(observations);
    NoSeedsMeans(p.snapshot);
    HostsMean(p.snapshot);
    PlainUrlsMean(p.hosts);
  }

  ghost predicate Showed(observations: seq<Observation>, url: string) {
    exists o, s :: o in observations && s in o.data.services && Shows(s, url)
  }

  ghost predicate IsProbeUrl(p: Planner, observations: seq<Observation>, url: string) {
    if exists u :: Showed(observations, u) then Showed(observations, url)
    else if exists u :: IsSeed(p.snapshot, u) then IsSeed(p.snapshot, url)
    else exists h :: h in p.hosts && url == "http://" + h
  }

  lemma NoServicesMeans(observations: seq<Observation>)
    ensures HttpxUrls(observations) == [] <==> !exists u :: Showed(observations, u)
    ensures (!exists u :: Showed(observations, u)) ==> forall u :: !FirstAnswers(AllServices(observations), u, true)
  {
    var services := AllServices(observations);
    HttpxUrlsMean(observations);
    if HttpxUrls(observations) != [] {
      assert HttpxUrls(observations)[0] in HttpxUrls(observations);
      assert Showed(observations, HttpxUrls(observations)[0]);
    }
    forall u | FirstAnswers(services, u, true) ensures Showed(observations, u) {
      SeenBefore(services, u);
      var s :| s in services && Shows(s, u);
      ServiceObserved(observations, s);
    }
  }
}
