/**
 Live authorizations (backend/services/live_authorization_service.py): issuing a record, copying
 it into an immutable snapshot, and accepting a live scan exactly when nothing has drifted.
 */
module LiveAuthorization {
  import opened Wrappers
  import opened Text
  import opened Timestamps
  import E = ExecutionProfiles
  import O = Origins

  type Id = E.Id

  datatype Status = Active | Suspended | Revoked

  datatype Authorization = Authorization(
    id: Id, projectId: Id, status: Status, policyVersion: string,
    origins: seq<O.OriginEntry>, exclusions: seq<O.OriginEntry>, methods: seq<string>,
    validFrom: DateTime, validUntil: DateTime,
    evidenceRef: Option<string>, evidenceSha: Option<string>)

  datatype LiveScan = LiveScan(
    id: Id, projectId: Id, authorizationId: Option<Id>,
    snapshot: E.Doc, snapshotDigest: Option<string>, profile: E.Doc, profileDigest: Option<string>)

  // ----- rendering -------------------------------------------------------

  function EntryDoc(e: O.OriginEntry): E.Doc {
    E.DDict(map[E.Origin := E.DText(e.origin), E.Scheme := E.DText(e.scheme), E.Host := E.DText(e.host),
                E.Port := E.DInt(e.port)])
  }

  function EntryDocs(entries: seq<O.OriginEntry>): (r: seq<E.Doc>)
    ensures |r| == |entries| && forall i :: 0 <= i < |r| ==> r[i] == EntryDoc(entries[i])
  {
    seq(|entries|, i requires 0 <= i < |entries| => EntryDoc(entries[i]))
  }

  function PayloadFields(a: Authorization): map<E.Key, E.Doc> {
    map[
      E.AuthorizationId := E.DText(a.id), E.ProjectId := E.DText(a.projectId),
      E.PolicyVersion := E.DText(a.policyVersion),
      E.ValidFrom := E.DText(UtcIso(a.validFrom)), E.ValidUntil := E.DText(UtcIso(a.validUntil)),
      E.Origins := E.DList(EntryDocs(a.origins)), E.Exclusions := E.DList(EntryDocs(a.exclusions)),
      E.Methods := E.DList(E.TextDocs(a.methods)), E.Paths := E.DList(E.TextDocs(E.LIVE_PATHS)),
      E.FollowRedirects := E.DBool(false), E.Discovery := E.DBool(false)]
  }

  predicate InWindow(a: Authorization, now: DateTime) {
    Rank(a.validFrom) <= Rank(now) < Rank(a.validUntil)
  }

  predicate CanonicalNames(names: seq<string>) {
    O.ParseList(names).Some? && O.OriginsOf(O.ParseList(names).value) == names
  }

  /** authorization_payload: the record is usable now, and this is what a snapshot says of it. */
  function Payload(cfg: E.Config, a: Authorization, now: DateTime): Result<map<E.Key, E.Doc>, E.Refusal> {
    if a.status != Active then Failure(E.NotActive)
    else if Rank(now) < Rank(a.validFrom) then Failure(E.NotYetValid)
    else if Rank(now) >= Rank(a.validUntil) then Failure(E.Expired)
    else if a.policyVersion != cfg.policyVersion then Failure(E.PolicyDrift)
    else if a.methods != E.LIVE_METHODS then Failure(E.MethodsDiffer)
    else
      var effective := O.Effective(a.origins, a.exclusions);
      if effective == [] then Failure(E.NothingEffective)
      else if O.ParseList(O.OriginsOf(effective)).None? then Failure(E.BadOrigin)
      else if !CanonicalNames(O.OriginsOf(effective)) then Failure(E.NotCanonical)
      else Success(PayloadFields(a))
  }

  function WithDigest(cfg: E.Config, core: map<E.Key, E.Doc>): E.Doc {
    E.DDict(core[E.Digest := E.DText(cfg.digest(E.DDict(core)))])
  }

  function Core(fields: map<E.Key, E.Doc>): map<E.Key, E.Doc> {
    fields - {E.Digest}
  }

  // ----- verifying a snapshot --------------------------------------------

  predicate IsEntryDoc(d: E.Doc) {
    d.DDict? && E.Text(d.fields, E.Origin).Some?
  }

  function EntryName(d: E.Doc): string
    requires IsEntryDoc(d)
  {
    E.Text(d.fields, E.Origin).value
  }

  function EntryNames(items: seq<E.Doc>): (r: seq<string>)
    requires forall i :: 0 <= i < |items| ==> IsEntryDoc(items[i])
    ensures |r| == |items| && forall i :: 0 <= i < |r| ==> r[i] == EntryName(items[i])
  {
    seq(|items|, i requires 0 <= i < |items| => EntryName(items[i]))
  }

  /** The origins of a stored list; None when it is no list of entries. */
  function Names(d: E.Doc): Option<seq<string>> {
    if d.DList? && forall i :: 0 <= i < |d.items| ==> IsEntryDoc(d.items[i]) then Some(EntryNames(d.items)) else None
  }

  predicate IsFalsy(d: E.Doc) {
    match d
    case DNull => true
    case DBool(b) => !b
    case DInt(n) => n == 0
    case DText(s) => s == ""
    case DList(items) => items == []
    case DDict(fields) => fields == map[]
  }

  function ExclusionNames(d: E.Doc): Option<seq<string>> {
    if IsFalsy(d) then Some([]) else Names(d)
  }

  function CheckList(names: seq<string>): Option<E.Refusal> {
    if O.ParseList(names).None? then Some(E.BadOrigin)
    else if !CanonicalNames(names) then Some(E.Tampered)
    else None
  }

  predicate Covers(excluded: seq<string>, names: seq<string>) {
    forall n :: n in names ==> n in excluded
  }

  function FirstOf(a: Option<E.Refusal>, b: Option<E.Refusal>): Option<E.Refusal> {
    if a.Some? then a else b
  }

  function CheckNames(origins: Option<seq<string>>, exclusions: Option<seq<string>>): Option<E.Refusal> {
    if origins.None? then Some(E.Tampered)
    else
      FirstOf(
        CheckList(origins.value),
        if exclusions.None? then Some(E.Tampered)
        else
          FirstOf(
            if exclusions.value == [] then None else CheckList(exclusions.value),
            if Covers(exclusions.value, origins.value) then Some(E.NothingEffective) else None))
  }

  function ParsedTime(core: map<E.Key, E.Doc>, k: E.Key): Option<DateTime> {
    var t := E.Text(core, k);
    if t.Some? then ParseUtc(t.value) else None
  }

  function CheckWindow(from: Option<DateTime>, until: Option<DateTime>, now: DateTime): Option<E.Refusal> {
    if from.None? || until.None? then Some(E.Tampered)
    else if Rank(now) < Rank(from.value) then Some(E.NotYetValid)
    else if Rank(now) >= Rank(until.value) then Some(E.Expired)
    else None
  }

  function CheckPolicy(cfg: E.Config, core: map<E.Key, E.Doc>): Option<E.Refusal> {
    if E.Get(core, E.FollowRedirects) != E.DBool(false) || E.Get(core, E.Discovery) != E.DBool(false)
    then Some(E.Tampered)
    else if E.Get(core, E.PolicyVersion) != E.DText(cfg.policyVersion) then Some(E.PolicyDrift)
    else if E.Get(core, E.Methods) != E.DList(E.TextDocs(E.LIVE_METHODS))
         || E.Get(core, E.Paths) != E.DList(E.TextDocs(E.LIVE_PATHS)) then Some(E.Tampered)
    else None
  }

  /** The part of verify_snapshot_payload behind the two digests: authorization and project id. */
  function VerifyCore(cfg: E.Config, core: map<E.Key, E.Doc>, now: DateTime): Result<(Id, Id), E.Refusal> {
    var (a, p) := (E.IdOf(cfg, core, E.AuthorizationId), E.IdOf(cfg, core, E.ProjectId));
    if a.None? || p.None? then Failure(E.Tampered)
    else
      match FirstOf(
        CheckPolicy(cfg, core),
        FirstOf(CheckNames(Names(E.Get(core, E.Origins)), ExclusionNames(E.Get(core, E.Exclusions))),
                CheckWindow(ParsedTime(core, E.ValidFrom), ParsedTime(core, E.ValidUntil), now)))
      case Some(e) => Failure(e)
      case None => Success((a.value, p.value))
  }

  predicate Anchored(cfg: E.Config, snapshot: E.Doc, stored: Option<string>) {
    && snapshot.DDict? && stored.Some?
    && E.Text(snapshot.fields, E.Digest) == Some(cfg.digest(E.DDict(Core(snapshot.fields))))
    && stored == E.Text(snapshot.fields, E.Digest)
  }

  /** verify_snapshot_payload */
  function VerifySnapshot(cfg: E.Config, snapshot: E.Doc, stored: Option<string>, now: DateTime)
    : Result<(Id, Id), E.Refusal>
  {
    if !Anchored(cfg, snapshot, stored) then Failure(E.Tampered) else VerifyCore(cfg, Core(snapshot.fields), now)
  }

  // ----- verifying a scan ------------------------------------------------

  function AnchorsOf(scan: LiveScan, authorization: Id): E.Anchors {
    E.Anchors(scan.id, scan.authorizationId, scan.projectId, authorization)
  }

  /** Everything after the snapshot has been verified, against the parent record. */
  function VerifyAgainst(cfg: E.Config, parent: Authorization, scan: LiveScan, ids: (Id, Id), now: DateTime)
    : Result<(Id, Id), E.Refusal>
  {
    match Payload(cfg, parent, now)
    case Failure(e) => Failure(e)
    case Success(rendered) =>
      if !scan.snapshot.DDict? || cfg.digest(E.DDict(rendered)) != cfg.digest(E.DDict(Core(scan.snapshot.fields)))
      then Failure(E.Tampered)
      else if ids != (parent.id, parent.projectId) then Failure(E.Tampered)
      else if scan.projectId != parent.projectId then Failure(E.WrongProject)
      else
        match E.VerifyProfile(cfg, scan.profile, scan.profileDigest, AnchorsOf(scan, ids.0))
        case Failure(e) => Failure(e)
        case Success(_) => Success(ids)
  }

  /** verify_live_scan_authorization */
  function Verify(cfg: E.Config, auths: map<Id, Authorization>, scan: LiveScan, now: DateTime)
    : Result<(Id, Id), E.Refusal>
  {
    match VerifySnapshot(cfg, scan.snapshot, scan.snapshotDigest, now)
    case Failure(e) => Failure(e)
    case Success(ids) =>
      if scan.authorizationId != Some(ids.0) then Failure(E.NotReferenced)
      else if ids.0 !in auths then Failure(E.ParentMissing)
      else VerifyAgainst(cfg, auths[ids.0], scan, ids, now)
  }

  // ----- what a record must be like --------------------------------------

  predicate ListOk(entries: seq<O.OriginEntry>) {
    CanonicalNames(O.OriginsOf(entries))
  }

  /** The record is usable now: what the two renderings agree to accept. */
  predicate Usable(cfg: E.Config, a: Authorization, now: DateTime) {
    && a.status == Active && InWindow(a, now) && a.policyVersion == cfg.policyVersion && a.methods == E.LIVE_METHODS
    && ListOk(a.origins) && (a.exclusions == [] || ListOk(a.exclusions))
    && O.Effective(a.origins, a.exclusions) != []
  }

  /** The row itself is well formed: ids as printed, datetimes as the database holds them. */
  predicate RowOk(cfg: E.Config, a: Authorization) {
    E.IsId(cfg, a.id) && E.IsId(cfg, a.projectId) && Valid(a.validFrom) && Valid(a.validUntil)
  }

  predicate StoreOk(cfg: E.Config, auths: map<Id, Authorization>) {
    forall id :: id in auths ==> auths[id].id == id && RowOk(cfg, auths[id])
  }
}
