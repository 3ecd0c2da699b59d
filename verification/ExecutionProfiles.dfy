/**
 Stored documents and the execution profile of live scans (backend/services/live_probe_budgets.py,
 backend/services/live_authorization_service.py).
 */
module ExecutionProfiles {
  import opened Wrappers
  import opened Hostnames

  // ----- documents -------------------------------------------------------

  /** The field names of authorization snapshots and execution profiles; Other is any other name. */
  datatype Key =
    | AuthorizationId | ProjectId | PolicyVersion | ValidFrom | ValidUntil | Origins | Exclusions | Methods | Paths
    | FollowRedirects | Discovery | Digest | Origin | Scheme | Host | Port
    | ProfileId | ScanId | Mode | Steps | Executor | Budgets | RequestPolicy | DnsPolicy
    | MaxRequests | RequestsPerSecond | RequestTimeout | WallClock | ResponseMaxBytes | MaxConnections | DnsTimeout
    | Ports | HonorEnvProxies | AcceptEncoding
    | RecordGroups | AnswerSetPolicy | CnameFollowing | Cache
    | Other(name: string)

  /** A JSON value. */
  datatype Doc =
    | DNull
    | DBool(b: bool)
    | DInt(n: int)
    | DText(s: string)
    | DList(items: seq<Doc>)
    | DDict(fields: map<Key, Doc>)

  /** The canonical text of a UUID. */
  type Id = string

  datatype Refusal =
    | NotActive | NotYetValid | Expired | PolicyDrift | MethodsDiffer | NothingEffective | NotCanonical | BadOrigin
    | Tampered | NotReferenced | ParentMissing | WrongProject
    | ProfileMissing | ProfileSchema | ProfileIntegrity | ProfilePolicy | ProfileBinding | ProfileBudget

  /** Settings and the functions that are left open: SHA-256 over canonical JSON, and reading a UUID. */
  datatype Config = Config(policyVersion: string, digest: Doc -> string, parseId: string -> Option<Id>)

  predicate IsSha256(s: string) {
    |Chomp(s)| == 64 && forall i :: 0 <= i < 64 ==> '0' <= Chomp(s)[i] <= '9' || 'a' <= Chomp(s)[i] <= 'f'
  }

  /** What SHA-256 provides for every document: a hexadecimal text of fixed length. */
  ghost predicate HexDigest(cfg: Config) {
    forall d: Doc :: IsSha256(cfg.digest(d))
  }

  /** The digest tells these two documents apart, if they differ. */
  predicate NoCollision(cfg: Config, d: Doc, e: Doc) {
    cfg.digest(d) == cfg.digest(e) ==> d == e
  }

  predicate IsId(cfg: Config, id: Id) {
    cfg.parseId(id) == Some(id)
  }

  function Get(fields: map<Key, Doc>, k: Key): Doc {
    if k in fields then fields[k] else DNull
  }

  function Text(fields: map<Key, Doc>, k: Key): Option<string> {
    var d := Get(fields, k);
    if d.DText? then Some(d.s) else None
  }

  function Int(fields: map<Key, Doc>, k: Key): Option<int> {
    var d := Get(fields, k);
    if d.DInt? then Some(d.n) else None
  }

  function Bool(fields: map<Key, Doc>, k: Key): Option<bool> {
    var d := Get(fields, k);
    if d.DBool? then Some(d.b) else None
  }

  function TextDocs(xs: seq<string>): (r: seq<Doc>)
    ensures |r| == |xs| && forall i :: 0 <= i < |r| ==> r[i] == DText(xs[i])
  {
    seq(|xs|, i requires 0 <= i < |xs| => DText(xs[i]))
  }

  function IntDocs(xs: seq<int>): (r: seq<Doc>)
    ensures |r| == |xs| && forall i :: 0 <= i < |r| ==> r[i] == DInt(xs[i])
  {
    seq(|xs|, i requires 0 <= i < |xs| => DInt(xs[i]))
  }

  function TextItems(items: seq<Doc>): (r: seq<string>)
    requires forall i :: 0 <= i < |items| ==> items[i].DText?
    ensures |r| == |items| && forall i :: 0 <= i < |r| ==> r[i] == items[i].s
  {
    seq(|items|, i requires 0 <= i < |items| => items[i].s)
  }

  function IntItems(items: seq<Doc>): (r: seq<int>)
    requires forall i :: 0 <= i < |items| ==> items[i].DInt?
    ensures |r| == |items| && forall i :: 0 <= i < |r| ==> r[i] == items[i].n
  {
    seq(|items|, i requires 0 <= i < |items| => items[i].n)
  }

  function Texts(fields: map<Key, Doc>, k: Key): Option<seq<string>> {
    var d := Get(fields, k);
    if d.DList? && forall i :: 0 <= i < |d.items| ==> d.items[i].DText? then Some(TextItems(d.items)) else None
  }

  function Ints(fields: map<Key, Doc>, k: Key): Option<seq<int>> {
    var d := Get(fields, k);
    if d.DList? && forall i :: 0 <= i < |d.items| ==> d.items[i].DInt? then Some(IntItems(d.items)) else None
  }

  function Dict(fields: map<Key, Doc>, k: Key): Option<map<Key, Doc>> {
    var d := Get(fields, k);
    if d.DDict? then Some(d.fields) else None
  }

  function IdOf(cfg: Config, fields: map<Key, Doc>, k: Key): Option<Id> {
    var t := Text(fields, k);
    if t.Some? then cfg.parseId(t.value) else None
  }

  lemma TextsBack(fields: map<Key, Doc>, k: Key, xs: seq<string>)
    requires k in fields && fields[k] == DList(TextDocs(xs))
    ensures Texts(fields, k) == Some(xs)
  {
    assert TextItems(TextDocs(xs)) == xs;
  }

  lemma IntsBack(fields: map<Key, Doc>, k: Key, xs: seq<int>)
    requires k in fields && fields[k] == DList(IntDocs(xs))
    ensures Ints(fields, k) == Some(xs)
  {
    assert IntItems(IntDocs(xs)) == xs;
  }

  // ----- the execution profile -------------------------------------------

  datatype BudgetLimits = BudgetLimits(
    maxRequests: int, requestsPerSecond: int, requestTimeout: int, wallClock: int, responseMaxBytes: int,
    maxConnections: int, dnsTimeout: int)

  datatype RequestRules = RequestRules(
    methods: seq<string>, paths: seq<string>, ports: seq<int>, followRedirects: bool, honorEnvProxies: bool,
    acceptEncoding: string)

  datatype DnsRules = DnsRules(
    recordGroups: seq<string>, answerSetPolicy: string, cnameFollowing: bool, cache: string)

  datatype Profile = Profile(
    profileId: Id, scanId: Id, authorizationId: Id, projectId: Id, policyVersion: string, mode: string,
    steps: seq<string>, executor: string, limits: BudgetLimits, request: RequestRules, dns: DnsRules)

  const LIVE_METHODS := ["GET"]
  const LIVE_PATHS := ["/"]
  const PINNED_LIMITS := BudgetLimits(200, 1, 30, 600, 262_144, 2, 5)
  const PINNED_REQUEST := RequestRules(LIVE_METHODS, LIVE_PATHS, [80, 443], false, false, "identity")
  const PINNED_DNS := DnsRules(["A", "AAAA"], "all_answers_global", true, "none")
  const PINNED_MODE := "pipeline"
  const PINNED_STEPS := ["live_root_get"]
  const PINNED_EXECUTOR := "live_transport_v1"

  /** render_execution_profile, before it is turned into a document. */
  function Pinned(profileId: Id, scanId: Id, authorizationId: Id, projectId: Id, policyVersion: string): Profile {
    Profile(profileId, scanId, authorizationId, projectId, policyVersion, PINNED_MODE, PINNED_STEPS, PINNED_EXECUTOR,
            PINNED_LIMITS, PINNED_REQUEST, PINNED_DNS)
  }

  function LimitsDoc(b: BudgetLimits): map<Key, Doc> {
    map[MaxRequests := DInt(b.maxRequests), RequestsPerSecond := DInt(b.requestsPerSecond),
        RequestTimeout := DInt(b.requestTimeout), WallClock := DInt(b.wallClock),
        ResponseMaxBytes := DInt(b.responseMaxBytes), MaxConnections := DInt(b.maxConnections),
        DnsTimeout := DInt(b.dnsTimeout)]
  }

  function RequestDoc(r: RequestRules): map<Key, Doc> {
    map[Methods := DList(TextDocs(r.methods)), Paths := DList(TextDocs(r.paths)), Ports := DList(IntDocs(r.ports)),
        FollowRedirects := DBool(r.followRedirects), HonorEnvProxies := DBool(r.honorEnvProxies),
        AcceptEncoding := DText(r.acceptEncoding)]
  }

  function DnsDoc(d: DnsRules): map<Key, Doc> {
    map[RecordGroups := DList(TextDocs(d.recordGroups)), AnswerSetPolicy := DText(d.answerSetPolicy),
        CnameFollowing := DBool(d.cnameFollowing), Cache := DText(d.cache)]
  }

  /** model_dump(mode="json") */
  function ProfileDoc(p: Profile): Doc {
    DDict(map[
      ProfileId := DText(p.profileId), ScanId := DText(p.scanId), AuthorizationId := DText(p.authorizationId),
      ProjectId := DText(p.projectId), PolicyVersion := DText(p.policyVersion), Mode := DText(p.mode),
      Steps := DList(TextDocs(p.steps)), Executor := DText(p.executor), Budgets := DDict(LimitsDoc(p.limits)),
      RequestPolicy := DDict(RequestDoc(p.request)), DnsPolicy := DDict(DnsDoc(p.dns))])
  }

  // ----- strict parsing --------------------------------------------------

  function ParseLimits(f: map<Key, Doc>): Option<BudgetLimits> {
    if f.Keys != {MaxRequests, RequestsPerSecond, RequestTimeout, WallClock, ResponseMaxBytes, MaxConnections, DnsTimeout}
    then None
    else
      var (a, b, c, d) := (Int(f, MaxRequests), Int(f, RequestsPerSecond), Int(f, RequestTimeout), Int(f, WallClock));
      var (e, g, h) := (Int(f, ResponseMaxBytes), Int(f, MaxConnections), Int(f, DnsTimeout));
      if a.Some? && b.Some? && c.Some? && d.Some? && e.Some? && g.Some? && h.Some?
      then Some(BudgetLimits(a.value, b.value, c.value, d.value, e.value, g.value, h.value))
      else None
  }

  function ParseRequest(f: map<Key, Doc>): Option<RequestRules> {
    if f.Keys != {Methods, Paths, Ports, FollowRedirects, HonorEnvProxies, AcceptEncoding} then None
    else
      var (a, b, c) := (Texts(f, Methods), Texts(f, Paths), Ints(f, Ports));
      var (d, e, g) := (Bool(f, FollowRedirects), Bool(f, HonorEnvProxies), Text(f, AcceptEncoding));
      if a.Some? && b.Some? && c.Some? && d.Some? && e.Some? && g.Some?
      then Some(RequestRules(a.value, b.value, c.value, d.value, e.value, g.value))
      else None
  }

  function ParseDns(f: map<Key, Doc>): Option<DnsRules> {
    if f.Keys != {RecordGroups, AnswerSetPolicy, CnameFollowing, Cache} then None
    else
      var (a, b, c, d) := (Texts(f, RecordGroups), Text(f, AnswerSetPolicy), Bool(f, CnameFollowing), Text(f, Cache));
      if a.Some? && b.Some? && c.Some? && d.Some? then Some(DnsRules(a.value, b.value, c.value, d.value)) else None
  }

  datatype Bindings = Bindings(profileId: Id, scanId: Id, authorizationId: Id, projectId: Id)

  function ParseBindings(cfg: Config, f: map<Key, Doc>): Option<Bindings> {
    var (a, b, c, d) := (IdOf(cfg, f, ProfileId), IdOf(cfg, f, ScanId), IdOf(cfg, f, AuthorizationId), IdOf(cfg, f, ProjectId));
    if a.Some? && b.Some? && c.Some? && d.Some? then Some(Bindings(a.value, b.value, c.value, d.value)) else None
  }

  function ParseRules(f: map<Key, Doc>): Option<(BudgetLimits, RequestRules, DnsRules)> {
    var (b, r, d) := (Dict(f, Budgets), Dict(f, RequestPolicy), Dict(f, DnsPolicy));
    if b.None? || r.None? || d.None? then None
    else
      var (limits, request, dns) := (ParseLimits(b.value), ParseRequest(r.value), ParseDns(d.value));
      if limits.Some? && request.Some? && dns.Some? then Some((limits.value, request.value, dns.value)) else None
  }

  const PROFILE_KEYS: set<Key> := {
    ProfileId, ScanId, AuthorizationId, ProjectId, PolicyVersion, Mode, Steps, Executor, Budgets, RequestPolicy, DnsPolicy}

  /** model_validate with extra="forbid" and strict scalars. */
  function ParseProfile(cfg: Config, f: map<Key, Doc>): Option<Profile> {
    if f.Keys != PROFILE_KEYS then None
    else
      var (ids, rules) := (ParseBindings(cfg, f), ParseRules(f));
      var (v, m, s, x) := (Text(f, PolicyVersion), Text(f, Mode), Texts(f, Steps), Text(f, Executor));
      if ids.Some? && rules.Some? && v.Some? && m.Some? && s.Some? && x.Some? then
        Some(Profile(ids.value.profileId, ids.value.scanId, ids.value.authorizationId, ids.value.projectId,
                     v.value, m.value, s.value, x.value, rules.value.0, rules.value.1, rules.value.2))
      else None
  }

  lemma LimitsBack(b: BudgetLimits)
    ensures ParseLimits(LimitsDoc(b)) == Some(b)
  {
  }

  lemma RequestBack(r: RequestRules)
    ensures ParseRequest(RequestDoc(r)) == Some(r)
  {
    var f := RequestDoc(r);
    TextsBack(f, Methods, r.methods);
    TextsBack(f, Paths, r.paths);
    IntsBack(f, Ports, r.ports);
  }

  lemma DnsBack(d: DnsRules)
    ensures ParseDns(DnsDoc(d)) == Some(d)
  {
    TextsBack(DnsDoc(d), RecordGroups, d.recordGroups);
  }

  lemma RulesBack(f: map<Key, Doc>, p: Profile)
    requires Dict(f, Budgets) == Some(LimitsDoc(p.limits)) && Dict(f, RequestPolicy) == Some(RequestDoc(p.request))
    requires Dict(f, DnsPolicy) == Some(DnsDoc(p.dns))
    ensures ParseRules(f) == Some((p.limits, p.request, p.dns))
  {
    LimitsBack(p.limits);
    RequestBack(p.request);
    DnsBack(p.dns);
  }

  lemma ProfileFields(p: Profile)
    ensures var f := ProfileDoc(p).fields;
            && f.Keys == PROFILE_KEYS
            && Dict(f, Budgets) == Some(LimitsDoc(p.limits)) && Dict(f, RequestPolicy) == Some(RequestDoc(p.request))
            && Dict(f, DnsPolicy) == Some(DnsDoc(p.dns))
            && Text(f, ProfileId) == Some(p.profileId) && Text(f, ScanId) == Some(p.scanId)
            && Text(f, AuthorizationId) == Some(p.authorizationId) && Text(f, ProjectId) == Some(p.projectId)
            && Text(f, PolicyVersion) == Some(p.policyVersion) && Text(f, Mode) == Some(p.mode)
            && Text(f, Executor) == Some(p.executor) && Texts(f, Steps) == Some(p.steps)
  {
    TextsBack(ProfileDoc(p).fields, Steps, p.steps);
  }

  /** A rendered profile with canonical ids parses to itself. */
  lemma ProfileRoundTrip(cfg: Config, p: Profile)
    requires IsId(cfg, p.profileId) && IsId(cfg, p.scanId) && IsId(cfg, p.authorizationId) && IsId(cfg, p.projectId)
    ensures ParseProfile(cfg, ProfileDoc(p).fields) == Some(p)
  {
    var f := ProfileDoc(p).fields;
    ProfileFields(p);
    RulesBack(f, p);
    BindingsBack(cfg, f, p);
    Assembled(cfg, f, p);
  }

  lemma BindingsBack(cfg: Config, f: map<Key, Doc>, p: Profile)
    requires IsId(cfg, p.profileId) && IsId(cfg, p.scanId) && IsId(cfg, p.authorizationId) && IsId(cfg, p.projectId)
    requires Text(f, ProfileId) == Some(p.profileId) && Text(f, ScanId) == Some(p.scanId)
    requires Text(f, AuthorizationId) == Some(p.authorizationId) && Text(f, ProjectId) == Some(p.projectId)
    ensures ParseBindings(cfg, f) == Some(Bindings(p.profileId, p.scanId, p.authorizationId, p.projectId))
  {
  }

  lemma Assembled(cfg: Config, f: map<Key, Doc>, p: Profile)
    requires f.Keys == PROFILE_KEYS && ParseRules(f) == Some((p.limits, p.request, p.dns))
    requires ParseBindings(cfg, f) == Some(Bindings(p.profileId, p.scanId, p.authorizationId, p.projectId))
    requires Text(f, PolicyVersion) == Some(p.policyVersion) && Text(f, Mode) == Some(p.mode)
    requires Text(f, Executor) == Some(p.executor) && Texts(f, Steps) == Some(p.steps)
    ensures ParseProfile(cfg, f) == Some(p)
  {
  }

  // ----- verifying a stored profile --------------------------------------

  /** The live values a profile has to agree with. */
  datatype Anchors = Anchors(scanId: Id, scanAuthorization: Option<Id>, projectId: Id, snapshotAuthorization: Id)

  function CheckBindings(cfg: Config, p: Profile, live: Anchors): Option<Refusal> {
    if p.policyVersion != cfg.policyVersion then Some(ProfilePolicy)
    else if p.scanId != live.scanId then Some(ProfileBinding)
    else if Some(p.authorizationId) != live.scanAuthorization || p.authorizationId != live.snapshotAuthorization
    then Some(ProfileBinding)
    else if p.projectId != live.projectId then Some(ProfileBinding)
    else None
  }

  // The pinned constants are compared one field after the other; the first difference refuses.

  function CheckLimits(b: BudgetLimits): Option<Refusal> {
    if b.maxRequests != PINNED_LIMITS.maxRequests then Some(ProfileBudget)
    else if b.requestsPerSecond != PINNED_LIMITS.requestsPerSecond then Some(ProfileBudget)
    else if b.requestTimeout != PINNED_LIMITS.requestTimeout then Some(ProfileBudget)
    else if b.wallClock != PINNED_LIMITS.wallClock then Some(ProfileBudget)
    else if b.responseMaxBytes != PINNED_LIMITS.responseMaxBytes then Some(ProfileBudget)
    else if b.maxConnections != PINNED_LIMITS.maxConnections then Some(ProfileBudget)
    else if b.dnsTimeout != PINNED_LIMITS.dnsTimeout then Some(ProfileBudget)
    else None
  }

  function CheckDns(d: DnsRules): Option<Refusal> {
    if d.recordGroups != PINNED_DNS.recordGroups then Some(ProfileBudget)
    else if d.answerSetPolicy != PINNED_DNS.answerSetPolicy then Some(ProfileBudget)
    else if d.cnameFollowing != PINNED_DNS.cnameFollowing then Some(ProfileBudget)
    else if d.cache != PINNED_DNS.cache then Some(ProfileBudget)
    else None
  }

  function CheckRequest(r: RequestRules): Option<Refusal> {
    if r.methods != LIVE_METHODS then Some(ProfileBudget)
    else if r.paths != LIVE_PATHS then Some(ProfileBudget)
    else if r.ports != PINNED_REQUEST.ports then Some(ProfileBudget)
    else if r.followRedirects || r.honorEnvProxies then Some(ProfileBudget)
    else if r.acceptEncoding != PINNED_REQUEST.acceptEncoding then Some(ProfileBudget)
    else None
  }

  function OrElse(first: Option<Refusal>, second: Option<Refusal>): Option<Refusal> {
    if first.Some? then first else second
  }

  function CheckPinned(p: Profile): Option<Refusal> {
    var budget := OrElse(OrElse(CheckLimits(p.limits), CheckDns(p.dns)), CheckRequest(p.request));
    if budget.Some? then budget
    else if p.mode != PINNED_MODE then Some(ProfileBudget)
    else if p.executor != PINNED_EXECUTOR || p.steps != PINNED_STEPS then Some(ProfileBinding)
    else None
  }

  predicate BudgetPinned(p: Profile) {
    p.limits == PINNED_LIMITS && p.dns == PINNED_DNS && p.request == PINNED_REQUEST && p.mode == PINNED_MODE
  }

  /** The comparisons leave no field out: together they are equality with the pinned records. */
  lemma PinnedFieldwise(p: Profile)
    ensures CheckPinned(p).None? <==> BudgetPinned(p) && p.executor == PINNED_EXECUTOR && p.steps == PINNED_STEPS
    ensures CheckPinned(p) == Some(ProfileBudget) <==> !BudgetPinned(p)
    ensures CheckPinned(p).None? ==>
              && p.limits == BudgetLimits(200, 1, 30, 600, 262_144, 2, 5)
              && p.request == RequestRules(["GET"], ["/"], [80, 443], false, false, "identity")
              && p.dns == DnsRules(["A", "AAAA"], "all_answers_global", true, "none")
              && p.mode == "pipeline" && p.steps == ["live_root_get"] && p.executor == "live_transport_v1"
  {
    assert CheckLimits(p.limits).None? <==> p.limits == PINNED_LIMITS;
    assert CheckDns(p.dns).None? <==> p.dns == PINNED_DNS;
    assert CheckRequest(p.request).None? <==> p.request == PINNED_REQUEST;
  }

  /** verify_execution_profile */
  function VerifyProfile(cfg: Config, payload: Doc, stored: Option<string>, live: Anchors): Result<Profile, Refusal> {
    if !payload.DDict? || stored.None? || !IsSha256(stored.value) then Failure(ProfileMissing)
    else
      var parsed := ParseProfile(cfg, payload.fields);
      if parsed.None? then Failure(ProfileSchema)
      else if stored.value != cfg.digest(payload) then Failure(ProfileIntegrity)
      else
        match CheckBindings(cfg, parsed.value, live)
        case Some(e) => Failure(e)
        case None =>
          match CheckPinned(parsed.value)
          case Some(e) => Failure(e)
          case None => Success(parsed.value)
  }

  /** The payload says, field for field, what rendering the scan's own ids would say. */
  predicate Conforms(cfg: Config, payload: Doc, stored: Option<string>, live: Anchors) {
    && payload.DDict? && stored == Some(cfg.digest(payload)) && IsSha256(cfg.digest(payload))
    && live.scanAuthorization == Some(live.snapshotAuthorization)
    && ParseProfile(cfg, payload.fields).Some?
    && var p := ParseProfile(cfg, payload.fields).value;
       p == Pinned(p.profileId, live.scanId, live.snapshotAuthorization, live.projectId, cfg.policyVersion)
  }

  lemma BindingsMean(cfg: Config, p: Profile, live: Anchors)
    ensures CheckBindings(cfg, p, live).None? && CheckPinned(p).None? <==>
              live.scanAuthorization == Some(live.snapshotAuthorization)
              && p == Pinned(p.profileId, live.scanId, live.snapshotAuthorization, live.projectId, cfg.policyVersion)
  {
    PinnedFieldwise(p);
  }

  /** A profile is accepted exactly when it parses to the pinned rendering on the live ids. */
  lemma ProfileExact(cfg: Config, payload: Doc, stored: Option<string>, live: Anchors)
    ensures VerifyProfile(cfg, payload, stored, live).Success? <==> Conforms(cfg, payload, stored, live)
  {
    if payload.DDict? && ParseProfile(cfg, payload.fields).Some? {
      BindingsMean(cfg, ParseProfile(cfg, payload.fields).value, live);
    }
  }

  /** Every rendering is accepted. */
  lemma RenderingAccepted(cfg: Config, profileId: Id, live: Anchors)
    requires HexDigest(cfg) && live.scanAuthorization == Some(live.snapshotAuthorization)
    requires IsId(cfg, profileId) && IsId(cfg, live.scanId) && IsId(cfg, live.projectId)
    requires IsId(cfg, live.snapshotAuthorization)
    ensures var doc := ProfileDoc(Pinned(profileId, live.scanId, live.snapshotAuthorization, live.projectId, cfg.policyVersion));
            VerifyProfile(cfg, doc, Some(cfg.digest(doc)), live).Success?
  {
    var p := Pinned(profileId, live.scanId, live.snapshotAuthorization, live.projectId, cfg.policyVersion);
    ProfileRoundTrip(cfg, p);
    ProfileExact(cfg, ProfileDoc(p), Some(cfg.digest(ProfileDoc(p))), live);
  }
}
