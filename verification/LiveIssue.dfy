/** Issuing, suspending and revoking live authorizations, and scans that are created from them. */
module LiveIssue {
  import opened Wrappers
  import opened Text
  import opened Hostnames
  import opened Timestamps
  import opened LiveAuthorization
  import opened LiveVerification
  import E = ExecutionProfiles
  import O = Origins

  datatype Request = Request(
    origins: seq<string>, exclusions: seq<string>, evidenceRef: Option<string>, evidenceSha: Option<string>,
    validFrom: Option<DateTime>, validUntil: Option<DateTime>)

  datatype ApiError =
    | AdminRequired | ProjectNotFound | AuthorizationInvalid | AuthorizationNotFound | InvalidState
    | NotPermitted(reason: E.Refusal) | WrongProjectBinding | LiveDisabled | DateOverflow

  /** `plusDays` is datetime + timedelta(days=n), which raises beyond the year 9999. */
  datatype Settings = Settings(
    cfg: E.Config, maxDays: int, enabled: bool, plusDays: (DateTime, nat) -> Option<DateTime>)

  ghost predicate DaysOk(settings: Settings) {
    forall t: DateTime, n: nat :: Valid(t) && settings.plusDays(t, n).Some? ==> Valid(settings.plusDays(t, n).value)
  }

  function TrimmedOrNone(s: Option<string>): Option<string> {
    if s.Some? && Strip(s.value) != "" then Some(Strip(s.value)) else None
  }

  /** _validate_evidence; None stands for LIVE_AUTHORIZATION_INVALID. */
  function Evidence(reference: Option<string>, sha: Option<string>): Option<(Option<string>, Option<string>)> {
    var r := TrimmedOrNone(reference);
    var h := if TrimmedOrNone(sha).Some? then Some(Lower(TrimmedOrNone(sha).value)) else None;
    if h.Some? && !E.IsSha256(h.value) then None
    else if r.None? && h.None? then None
    else Some((r, h))
  }

  function LifetimeDays(settings: Settings): nat {
    if settings.maxDays < 1 then 1 else settings.maxDays
  }

  /** The validity window a request asks for. */
  function Window(settings: Settings, req: Request, now: DateTime): Result<(DateTime, DateTime), ApiError> {
    var from := if req.validFrom.Some? then req.validFrom.value else now;
    var latest := settings.plusDays(from, LifetimeDays(settings));
    if latest.None? then Failure(DateOverflow)
    else if req.validUntil.None? then Success((from, latest.value))
    else if Rank(req.validUntil.value) <= Rank(from) then Failure(AuthorizationInvalid)
    else if Rank(req.validUntil.value) > Rank(latest.value) then Failure(AuthorizationInvalid)
    else Success((from, req.validUntil.value))
  }

  /** The exclusion list; an empty request list is not parsed. */
  function ParsedExclusions(values: seq<string>): Option<seq<O.OriginEntry>> {
    if values == [] then Some([]) else O.ParseList(values)
  }

  /** create_live_authorization, past the role and project checks. */
  function Issue(settings: Settings, id: Id, projectId: Id, req: Request, now: DateTime): Result<Authorization, ApiError> {
    var (origins, exclusions) := (O.ParseList(req.origins), ParsedExclusions(req.exclusions));
    if origins.None? || exclusions.None? then Failure(AuthorizationInvalid)
    else if forall n :: n in O.OriginsOf(origins.value) ==> n in O.OriginsOf(exclusions.value) then Failure(AuthorizationInvalid)
    else
      var evidence := Evidence(req.evidenceRef, req.evidenceSha);
      if evidence.None? then Failure(AuthorizationInvalid)
      else
        match Window(settings, req, now)
        case Failure(e) => Failure(e)
        case Success(w) =>
          Success(Authorization(
            id, projectId, Active, settings.cfg.policyVersion, origins.value, exclusions.value, E.LIVE_METHODS,
            w.0, w.1, evidence.value.0, evidence.value.1))
  }

  /** What every issued record satisfies for as long as it exists; only its status ever changes. */
  predicate Issued(a: Authorization) {
    && a.methods == E.LIVE_METHODS && ListOk(a.origins) && (a.exclusions == [] || ListOk(a.exclusions))
    && O.Effective(a.origins, a.exclusions) != [] && Valid(a.validFrom) && Valid(a.validUntil)
  }

  predicate RequestOk(req: Request) {
    (req.validFrom.Some? ==> Valid(req.validFrom.value)) && (req.validUntil.Some? ==> Valid(req.validUntil.value))
  }

  lemma ParsedIsOk(values: seq<string>)
    requires O.ParseList(values).Some?
    ensures ListOk(O.ParseList(values).value)
  {
    O.ParsedListIsCanonical(values);
    O.CanonicalListIsFixed(O.ParseList(values).value);
  }

  lemma WindowValid(settings: Settings, req: Request, now: DateTime)
    requires Window(settings, req, now).Success? && RequestOk(req) && Valid(now) && DaysOk(settings)
    ensures var w := Window(settings, req, now).value; Valid(w.0) && Valid(w.1)
  {
  }

  lemma IssueFields(settings: Settings, id: Id, projectId: Id, req: Request, now: DateTime)
    requires Issue(settings, id, projectId, req, now).Success?
    ensures var a := Issue(settings, id, projectId, req, now).value;
            && a.id == id && a.projectId == projectId && a.methods == E.LIVE_METHODS
            && O.ParseList(req.origins) == Some(a.origins) && ParsedExclusions(req.exclusions) == Some(a.exclusions)
            && (exists n :: n in O.OriginsOf(a.origins) && n !in O.OriginsOf(a.exclusions))
            && Window(settings, req, now) == Success((a.validFrom, a.validUntil))
  {
  }

  lemma IssueIsIssued(settings: Settings, id: Id, projectId: Id, req: Request, now: DateTime)
    requires Issue(settings, id, projectId, req, now).Success? && RequestOk(req) && Valid(now) && DaysOk(settings)
    ensures Issued(Issue(settings, id, projectId, req, now).value)
  {
    var a := Issue(settings, id, projectId, req, now).value;
    IssueFields(settings, id, projectId, req, now);
    WindowValid(settings, req, now);
    ListsIssued(a, req);
  }

  lemma ListsIssued(a: Authorization, req: Request)
    requires O.ParseList(req.origins) == Some(a.origins) && ParsedExclusions(req.exclusions) == Some(a.exclusions)
    requires exists n :: n in O.OriginsOf(a.origins) && n !in O.OriginsOf(a.exclusions)
    ensures ListOk(a.origins) && (a.exclusions == [] || ListOk(a.exclusions))
    ensures O.Effective(a.origins, a.exclusions) != []
  {
    ParsedIsOk(req.origins);
    if req.exclusions != [] {
      ParsedIsOk(req.exclusions);
    }
    EffectiveNonEmpty(a.origins, a.exclusions);
  }

  // ----- what a request must satisfy -------------------------------------

  /** Present and not blank. */
  predicate Given(s: Option<string>) {
    s.Some? && Strip(s.value) != ""
  }

  predicate Is64HexDigits(s: string) {
    |s| == 64 && forall c :: c in s ==> '0' <= c <= '9' || 'a' <= c <= 'f' || 'A' <= c <= 'F'
  }

  /** Some evidence is given, and a given digest is 64 hexadecimal digits in either case. */
  predicate EvidenceAccepted(req: Request) {
    (Given(req.evidenceRef) || Given(req.evidenceSha)) && (Given(req.evidenceSha) ==> Is64HexDigits(Strip(req.evidenceSha.value)))
  }

  function StartOf(req: Request, now: DateTime): DateTime {
    if req.validFrom.Some? then req.validFrom.value else now
  }

  /** The latest end: as many days after the start as the settings say, but at least one. */
  function LatestEnd(settings: Settings, req: Request, now: DateTime): Option<DateTime> {
    settings.plusDays(StartOf(req, now), if settings.maxDays >= 1 then settings.maxDays else 1)
  }

  /** The end that is asked for lies after the start and no later than the latest end. */
  predicate EndAccepted(settings: Settings, req: Request, now: DateTime) {
    && LatestEnd(settings, req, now).Some?
    && (req.validUntil.Some? ==>
          && Earlier(StartOf(req, now), req.validUntil.value)
          && !Earlier(LatestEnd(settings, req, now).value, req.validUntil.value))
  }

  /** Every origin and exclusion parses, and some origin is not excluded. */
  predicate OriginsAccepted(req: Request) {
    && O.ParseList(req.origins).Some? && (req.exclusions != [] ==> O.ParseList(req.exclusions).Some?)
    && exists n :: n in O.OriginsOf(O.ParseList(req.origins).value)
                   && (req.exclusions != [] ==> n !in O.OriginsOf(O.ParseList(req.exclusions).value))
  }

  /** The record that an accepted request asks for, column by column. */
  predicate AsRequested(settings: Settings, req: Request, now: DateTime, a: Authorization) {
    && a.status == Active && a.policyVersion == settings.cfg.policyVersion && a.methods == ["GET"]
    && O.ParseList(req.origins) == Some(a.origins)
    && (if req.exclusions == [] then a.exclusions == [] else O.ParseList(req.exclusions) == Some(a.exclusions))
    && a.validFrom == StartOf(req, now)
    && (req.validUntil.None? ==> LatestEnd(settings, req, now) == Some(a.validUntil))
    && (req.validUntil.Some? ==> a.validUntil == req.validUntil.value)
    && a.evidenceRef == (if Given(req.evidenceRef) then Some(Strip(req.evidenceRef.value)) else None)
    && a.evidenceSha == (if Given(req.evidenceSha) then Some(Lower(Strip(req.evidenceSha.value))) else None)
  }

  lemma NoFinalNewline(s: string)
    requires Stripped(s)
    ensures Chomp(Lower(s)) == Lower(s)
  {
    if s != "" {
      assert Lower(s)[|s| - 1..] == [LowerChar(s[|s| - 1])];
      assert LowerChar(s[|s| - 1]) != '\n';
    }
  }

  lemma DigestMeans(s: string)
    requires Stripped(s)
    ensures E.IsSha256(Lower(s)) <==> Is64HexDigits(s)
  {
    NoFinalNewline(s);
    var t := Lower(s);
    if E.IsSha256(t) {
      forall c | c in s ensures '0' <= c <= '9' || 'a' <= c <= 'f' || 'A' <= c <= 'F' {
        var i :| 0 <= i < |s| && s[i] == c;
        assert t[i] == LowerChar(c);
      }
    }
    if Is64HexDigits(s) {
      forall i | 0 <= i < 64 ensures '0' <= t[i] <= '9' || 'a' <= t[i] <= 'f' {
        assert s[i] in s;
      }
    }
  }

  lemma EvidenceMeans(req: Request)
    ensures var evidence := Evidence(req.evidenceRef, req.evidenceSha);
            && (evidence.Some? <==> EvidenceAccepted(req))
            && (evidence.Some? ==>
                  && evidence.value.0 == (if Given(req.evidenceRef) then Some(Strip(req.evidenceRef.value)) else None)
                  && evidence.value.1 == (if Given(req.evidenceSha) then Some(Lower(Strip(req.evidenceSha.value))) else None))
  {
    if Given(req.evidenceSha) {
      DigestMeans(Strip(req.evidenceSha.value));
    }
  }

  /** The window of a request: accepted exactly when its end is, and then as asked for or as long as allowed. */
  lemma WindowMeans(settings: Settings, req: Request, now: DateTime)
    requires RequestOk(req) && Valid(now) && DaysOk(settings)
    ensures var window, latest := Window(settings, req, now), LatestEnd(settings, req, now);
            && (window.Success? <==> EndAccepted(settings, req, now))
            && (window.Success? ==>
                  && window.value.0 == StartOf(req, now)
                  && window.value.1 == (if req.validUntil.Some? then req.validUntil.value else latest.value))
            && (window.Failure? ==> window.error == if latest.None? then DateOverflow else AuthorizationInvalid)
  {
    var from, latest := StartOf(req, now), LatestEnd(settings, req, now);
    if latest.Some? && req.validUntil.Some? {
      RankIsChronological(from, req.validUntil.value);
      RankIsChronological(latest.value, req.validUntil.value);
    }
  }

  lemma OriginsMean(req: Request)
    ensures var (origins, exclusions) := (O.ParseList(req.origins), ParsedExclusions(req.exclusions));
            OriginsAccepted(req) <==>
              origins.Some? && exclusions.Some?
              && exists n :: n in O.OriginsOf(origins.value) && n !in O.OriginsOf(exclusions.value)
  {
    assert O.OriginsOf([]) == [];
  }

  /** A request is accepted exactly when origins, evidence and window are, and the record is what it asked for. */
  lemma IssueMeans(settings: Settings, id: Id, projectId: Id, req: Request, now: DateTime)
    requires RequestOk(req) && Valid(now) && DaysOk(settings)
    ensures var issued := Issue(settings, id, projectId, req, now);
            && (issued.Success? <==>
                  OriginsAccepted(req) && EvidenceAccepted(req) && EndAccepted(settings, req, now))
            && (issued.Success? ==>
                  issued.value.id == id && issued.value.projectId == projectId && AsRequested(settings, req, now, issued.value))
  {
    OriginsMean(req);
    EvidenceMeans(req);
    WindowMeans(settings, req, now);
  }

  /** A row that was issued under its id. */
  function SoundRow(cfg: E.Config): (Id, Authorization) -> bool {
    (id: Id, a: Authorization) => a.id == id && RowOk(cfg, a) && Issued(a)
  }

  predicate AllRows(auths: map<Id, Authorization>, p: (Id, Authorization) -> bool) {
    forall id :: id in auths ==> p(id, auths[id])
  }

  lemma AddedRow(auths: map<Id, Authorization>, id: Id, a: Authorization, p: (Id, Authorization) -> bool)
    requires AllRows(auths, p) && p(id, a)
    ensures AllRows(auths[id := a], p)
  {
  }

  predicate SoundStore(cfg: E.Config, auths: map<Id, Authorization>) {
    AllRows(auths, SoundRow(cfg))
  }

  lemma SoundIsOk(cfg: E.Config, auths: map<Id, Authorization>)
    requires SoundStore(cfg, auths)
    ensures StoreOk(cfg, auths)
  {
    forall id | id in auths ensures auths[id].id == id && RowOk(cfg, auths[id]) {
      assert SoundRow(cfg)(id, auths[id]);
    }
  }

  lemma AddedIsSound(cfg: E.Config, auths: map<Id, Authorization>, a: Authorization)
    requires SoundStore(cfg, auths) && Issued(a) && RowOk(cfg, a)
    ensures SoundStore(cfg, auths[a.id := a])
  {
    AddedRow(auths, a.id, a, SoundRow(cfg));
  }

  lemma SoundAt(cfg: E.Config, auths: map<Id, Authorization>, id: Id)
    requires SoundStore(cfg, auths) && id in auths
    ensures auths[id].id == id && RowOk(cfg, auths[id]) && Issued(auths[id])
  {
    assert SoundRow(cfg)(id, auths[id]);
  }

  /** A change of status keeps a record issued. */
  lemma StatusKeepsSound(cfg: E.Config, auths: map<Id, Authorization>, id: Id, status: Status)
    requires SoundStore(cfg, auths) && id in auths
    ensures SoundStore(cfg, auths[id := auths[id].(status := status)])
  {
    SoundAt(cfg, auths, id);
    StatusIrrelevant(auths[id], status);
    AddedIsSound(cfg, auths, auths[id].(status := status));
  }

  lemma StatusIrrelevant(a: Authorization, status: Status)
    requires Issued(a)
    ensures Issued(a.(status := status))
  {
  }

  // ----- scans -----------------------------------------------------------

  /** The live scan that is stored for a record: its rendering, both digests, and the pinned profile. */
  function ScanOf(cfg: E.Config, a: Authorization, scanId: Id, profileId: Id): LiveScan {
    var profile := E.ProfileDoc(E.Pinned(profileId, scanId, a.id, a.projectId, cfg.policyVersion));
    LiveScan(
      scanId, a.projectId, Some(a.id), WithDigest(cfg, PayloadFields(a)), Some(cfg.digest(E.DDict(PayloadFields(a)))),
      profile, Some(cfg.digest(profile)))
  }

  /**
   Whatever is issued verifies: a scan created from the record is accepted at every moment of the
   window while the record is active and the policy version is the one it was issued under.
   */
  lemma IssueThenVerify(settings: Settings, auths: map<Id, Authorization>, a: Authorization, scanId: Id, profileId: Id,
                        now: DateTime)
    requires E.HexDigest(settings.cfg) && StoreOk(settings.cfg, auths)
    requires a.id in auths && auths[a.id] == a && Issued(a)
    requires a.status == Active && a.policyVersion == settings.cfg.policyVersion && InWindow(a, now)
    requires E.IsId(settings.cfg, scanId) && E.IsId(settings.cfg, profileId)
    ensures Verify(settings.cfg, auths, ScanOf(settings.cfg, a, scanId, profileId), now) == Success((a.id, a.projectId))
  {
    var scan := ScanOf(settings.cfg, a, scanId, profileId);
    E.RenderingAccepted(settings.cfg, profileId, AnchorsOf(scan, a.id));
    E.ProfileExact(settings.cfg, scan.profile, scan.profileDigest, AnchorsOf(scan, a.id));
    UndriftedIsAccepted(settings.cfg, auths, scan, now);
  }

  /** A suspended or revoked record never verifies again, whatever the scan carries. */
  lemma InactiveNeverVerifies(cfg: E.Config, auths: map<Id, Authorization>, scan: LiveScan, now: DateTime)
    requires scan.authorizationId.Some? && scan.authorizationId.value in auths
    requires auths[scan.authorizationId.value].status != Active
    ensures Verify(cfg, auths, scan, now).Failure?
  {
  }

  // ----- the service -----------------------------------------------------

  class LiveAuthorizationService {
    const settings: Settings
    const projects: set<Id>
    var auths: map<Id, Authorization>
    var scans: map<Id, LiveScan>

    constructor (settings: Settings, projects: set<Id>)
      ensures this.settings == settings && this.projects == projects && auths == map[] && scans == map[]
    {
      this.settings, this.projects, auths, scans := settings, projects, map[], map[];
    }

    /** Every record is one that was issued, under its own id. */
    predicate Sound()
      reads this`auths
    {
      SoundStore(settings.cfg, auths)
    }

    method CreateAuthorization(isAdmin: bool, id: Id, projectId: Id, req: Request, now: DateTime)
      returns (r: Result<Authorization, ApiError>)
      requires Sound() && id !in auths && E.IsId(settings.cfg, id) && E.IsId(settings.cfg, projectId)
      requires RequestOk(req) && Valid(now) && DaysOk(settings)
      modifies this`auths
      ensures Sound()
      ensures r.Success? <==>
                && isAdmin && projectId in projects
                && OriginsAccepted(req) && EvidenceAccepted(req) && EndAccepted(settings, req, now)
      ensures r.Success? ==> auths == old(auths)[id := r.value]
      ensures r.Failure? ==> auths == old(auths)
      ensures r.Success? ==>
                r.value.id == id && r.value.projectId == projectId && AsRequested(settings, req, now, r.value)
      ensures r.Success? ==>
                var latest := settings.plusDays(r.value.validFrom, if settings.maxDays >= 1 then settings.maxDays else 1);
                && r.value.validFrom == (if req.validFrom.Some? then req.validFrom.value else now)
                && latest.Some? && !Earlier(latest.value, r.value.validUntil)
                && (req.validUntil.None? ==> r.value.validUntil == latest.value)
                && (req.validUntil.Some? ==>
                      r.value.validUntil == req.validUntil.value && Earlier(r.value.validFrom, r.value.validUntil))
      ensures !isAdmin ==> r == Failure(AdminRequired)
      ensures isAdmin && projectId !in projects ==> r == Failure(ProjectNotFound)
    {
      if !isAdmin {
        return Failure(AdminRequired);
      }
      if projectId !in projects {
        return Failure(ProjectNotFound);
      }
      r := Issue(settings, id, projectId, req, now);
      IssueMeans(settings, id, projectId, req, now);
      if r.Success? {
        IssueIsIssued(settings, id, projectId, req, now);
        IssueFields(settings, id, projectId, req, now);
        AddedIsSound(settings.cfg, auths, r.value);
        auths := auths[id := r.value];
      }
    }

    /** active -> suspended, and nothing else. */
    method Suspend(isAdmin: bool, id: Id) returns (r: Result<Authorization, ApiError>)
      requires Sound()
      modifies this`auths
      ensures Sound()
      ensures r.Success? <==> isAdmin && id in old(auths) && old(auths)[id].status == Active
      ensures r.Success? ==> auths == old(auths)[id := old(auths)[id].(status := Suspended)]
      ensures r.Failure? ==> auths == old(auths)
    {
      if !isAdmin {
        return Failure(AdminRequired);
      }
      if id !in auths {
        return Failure(AuthorizationNotFound);
      }
      if auths[id].status != Active {
        return Failure(InvalidState);
      }
      StatusKeepsSound(settings.cfg, auths, id, Suspended);
      auths := auths[id := auths[id].(status := Suspended)];
      r := Success(auths[id]);
    }

    /** active or suspended -> revoked, once. */
    method Revoke(isAdmin: bool, id: Id) returns (r: Result<Authorization, ApiError>)
      requires Sound()
      modifies this`auths
      ensures Sound()
      ensures r.Success? <==> isAdmin && id in old(auths) && old(auths)[id].status != Revoked
      ensures r.Success? ==> auths == old(auths)[id := old(auths)[id].(status := Revoked)]
      ensures r.Failure? ==> auths == old(auths)
    {
      if !isAdmin {
        return Failure(AdminRequired);
      }
      if id !in auths {
        return Failure(AuthorizationNotFound);
      }
      if auths[id].status == Revoked {
        return Failure(InvalidState);
      }
      StatusKeepsSound(settings.cfg, auths, id, Revoked);
      auths := auths[id := auths[id].(status := Revoked)];
      r := Success(auths[id]);
    }

    /** create_live_scan for a visible project and authorization; a created scan verifies from now on. */
    method CreateLiveScan(projectId: Id, authorizationId: Option<Id>, scanId: Id, profileId: Id, now: DateTime)
      returns (r: Result<LiveScan, ApiError>)
      requires Sound() && E.HexDigest(settings.cfg)
      requires E.IsId(settings.cfg, scanId) && E.IsId(settings.cfg, profileId) && scanId !in scans
      modifies this`scans
      ensures r.Success? <==>
                settings.enabled && authorizationId.Some? && projectId in projects && authorizationId.value in auths
                && auths[authorizationId.value].projectId == projectId
                && Usable(settings.cfg, auths[authorizationId.value], now)
      ensures r.Success? ==> scans == old(scans)[scanId := r.value]
      ensures r.Failure? ==> scans == old(scans)
      ensures r.Success? ==>
                var a := auths[authorizationId.value];
                && r.value == ScanOf(settings.cfg, a, scanId, profileId)
                && forall later :: InWindow(a, later) ==> Verify(settings.cfg, auths, r.value, later).Success?
    {
      if !settings.enabled {
        return Failure(LiveDisabled);
      }
      if authorizationId.None? {
        return Failure(AuthorizationInvalid);
      }
      if projectId !in projects {
        return Failure(ProjectNotFound);
      }
      if authorizationId.value !in auths {
        return Failure(AuthorizationNotFound);
      }
      SoundAt(settings.cfg, auths, authorizationId.value);
      SoundIsOk(settings.cfg, auths);
      var a := auths[authorizationId.value];
      if a.projectId != projectId {
        return Failure(WrongProjectBinding);
      }
      PayloadIff(settings.cfg, a, now);
      var payload := Payload(settings.cfg, a, now);
      if payload.Failure? {
        return Failure(NotPermitted(payload.error));
      }
      var scan := ScanOf(settings.cfg, a, scanId, profileId);
      scans := scans[scanId := scan];
      forall later | InWindow(a, later) ensures Verify(settings.cfg, auths, scan, later).Success? {
        IssueThenVerify(settings, auths, a, scanId, profileId, later);
      }
      r := Success(scan);
    }

    method VerifyLiveScan(scan: LiveScan, now: DateTime) returns (r: Result<(Id, Id), E.Refusal>)
      requires Sound()
      ensures r == Verify(settings.cfg, auths, scan, now)
      ensures CollisionFree(settings.cfg, auths, scan) ==> (r.Success? <==> Acceptable(settings.cfg, auths, scan, now))
    {
      SoundIsOk(settings.cfg, auths);
      r := Verify(settings.cfg, auths, scan, now);
      if CollisionFree(settings.cfg, auths, scan) {
        VerifyIff(settings.cfg, auths, scan, now);
      }
    }
  }
}
