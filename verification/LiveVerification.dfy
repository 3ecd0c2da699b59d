/** When a live scan is accepted: exactly when nothing has drifted, and always after an honest issue. */
module LiveVerification {
  import opened Wrappers
  import opened Text
  import opened Timestamps
  import opened LiveAuthorization
  import E = ExecutionProfiles
  import O = Origins

  // ----- origin names ----------------------------------------------------

  predicate IsFixedName(n: string) {
    O.ParseOrigin(n).Some? && O.ParseOrigin(n).value.origin == n
  }

  ghost predicate SortedFixedNames(names: seq<string>) {
    StrictlySorted(names) && forall i :: 0 <= i < |names| ==> IsFixedName(names[i])
  }

  /** A list of names is canonical exactly when it is not empty, strictly sorted, and each name is canonical. */
  lemma CanonicalNamesIff(names: seq<string>)
    ensures CanonicalNames(names) <==> names != [] && SortedFixedNames(names)
  {
    if CanonicalNames(names) {
      O.ParsedListIsCanonical(names);
      var entries := O.ParseList(names).value;
      forall i | 0 <= i < |names| ensures IsFixedName(names[i]) {
        O.CanonicalIsFixed(entries[i]);
        assert O.OriginsOf(entries)[i] == entries[i].origin;
      }
      NamesSorted(entries);
    }
    if names != [] && SortedFixedNames(names) {
      FixedNamesCanonical(names);
    }
  }

  lemma NamesSorted(entries: seq<O.OriginEntry>)
    requires O.IsCanonicalList(entries)
    ensures StrictlySorted(O.OriginsOf(entries))
  {
    var names := O.OriginsOf(entries);
    forall i, j | 0 <= i < j < |names| ensures Less(names[i], names[j]) {
      assert names[i] == entries[i].origin && names[j] == entries[j].origin;
    }
  }

  lemma FixedNamesCanonical(names: seq<string>)
    requires names != [] && SortedFixedNames(names)
    ensures CanonicalNames(names)
  {
    forall i | 0 <= i < |names| ensures O.NameOf(names[i]) == [names[i]] {
      assert IsFixedName(names[i]);
    }
    assert O.AllParse(names) by {
      forall i | 0 <= i < |names| ensures O.ParseOrigin(names[i]).Some? {
        assert IsFixedName(names[i]);
      }
    }
    GatherSingletons(names, O.NameOf, names);
    SortedFixed(names);
    O.NamesParse(names);
    var entries := O.Entries(names);
    assert O.ParseList(names) == Some(entries);
    forall i | 0 <= i < |names| ensures O.OriginsOf(entries)[i] == names[i] {
      assert IsFixedName(names[i]);
    }
    assert O.OriginsOf(entries) == names;
  }

  lemma OriginsConcat(a: seq<O.OriginEntry>, b: seq<O.OriginEntry>)
    ensures O.OriginsOf(a + b) == O.OriginsOf(a) + O.OriginsOf(b)
  {
  }

  /** Dropping excluded entries keeps the names in order. */
  lemma {:induction false} EffectiveSorted(entries: seq<O.OriginEntry>, exclusions: seq<O.OriginEntry>)
    requires StrictlySorted(O.OriginsOf(entries))
    ensures var kept := O.OriginsOf(O.Effective(entries, exclusions));
            StrictlySorted(kept) && forall i :: 0 <= i < |kept| ==> kept[i] in O.OriginsOf(entries)
  {
    if entries != [] {
      var front, last := entries[..|entries| - 1], entries[|entries| - 1];
      var names := O.OriginsOf(entries);
      assert O.OriginsOf(front) == names[..|front|];
      EffectiveSorted(front, exclusions);
      var kept := O.OriginsOf(O.Effective(front, exclusions));
      if last.origin !in O.OriginsOf(exclusions) {
        OriginsConcat(O.Effective(front, exclusions), [last]);
        assert O.OriginsOf([last]) == [last.origin];
        AppendSorted(kept, names, last.origin);
      } else {
        assert O.Effective(entries, exclusions) == O.Effective(front, exclusions) + [];
      }
    }
  }

  lemma AppendSorted(kept: seq<string>, names: seq<string>, last: string)
    requires StrictlySorted(kept) && StrictlySorted(names) && names != [] && names[|names| - 1] == last
    requires forall i :: 0 <= i < |kept| ==> kept[i] in names[..|names| - 1]
    ensures StrictlySorted(kept + [last])
  {
    forall i | 0 <= i < |kept| ensures Less(kept[i], last) {
      var j :| 0 <= j < |names| - 1 && names[..|names| - 1][j] == kept[i];
      assert Less(names[j], names[|names| - 1]);
    }
  }

  /** Dropping excluded entries keeps the names canonical, whatever else the entries say. */
  lemma EffectiveNames(entries: seq<O.OriginEntry>, exclusions: seq<O.OriginEntry>)
    requires SortedFixedNames(O.OriginsOf(entries))
    ensures SortedFixedNames(O.OriginsOf(O.Effective(entries, exclusions)))
  {
    EffectiveSorted(entries, exclusions);
    var names, kept := O.OriginsOf(entries), O.OriginsOf(O.Effective(entries, exclusions));
    forall i | 0 <= i < |kept| ensures IsFixedName(kept[i]) {
      var j :| 0 <= j < |names| && names[j] == kept[i];
    }
  }

  lemma {:induction false} EffectiveNonEmpty(entries: seq<O.OriginEntry>, exclusions: seq<O.OriginEntry>)
    ensures O.Effective(entries, exclusions) != [] <==>
            exists n :: n in O.OriginsOf(entries) && n !in O.OriginsOf(exclusions)
  {
    if entries != [] {
      var front, last := entries[..|entries| - 1], entries[|entries| - 1];
      EffectiveNonEmpty(front, exclusions);
      assert entries == front + [last];
      OriginsConcat(front, [last]);
      assert O.OriginsOf([last]) == [last.origin];
      assert forall n :: n in O.OriginsOf(entries) <==> n in O.OriginsOf(front) || n == last.origin;
    }
  }

  // ----- reading a rendering back ----------------------------------------

  /** The fixed part of every rendering: GET on "/" only, no redirects, no discovery. */
  lemma RenderingMeans(a: Authorization)
    requires a.methods == E.LIVE_METHODS
    ensures var f := PayloadFields(a);
            && f.Keys == {E.AuthorizationId, E.ProjectId, E.PolicyVersion, E.ValidFrom, E.ValidUntil, E.Origins,
                          E.Exclusions, E.Methods, E.Paths, E.FollowRedirects, E.Discovery}
            && f[E.Methods] == E.DList([E.DText("GET")]) && f[E.Paths] == E.DList([E.DText("/")])
            && f[E.FollowRedirects] == E.DBool(false) && f[E.Discovery] == E.DBool(false)
  {
    assert E.TextDocs(["GET"]) == [E.DText("GET")] && E.TextDocs(["/"]) == [E.DText("/")];
  }

  lemma NamesBack(entries: seq<O.OriginEntry>)
    ensures Names(E.DList(EntryDocs(entries))) == Some(O.OriginsOf(entries))
  {
    var items := EntryDocs(entries);
    forall i | 0 <= i < |items| ensures IsEntryDoc(items[i]) && EntryName(items[i]) == entries[i].origin {
      assert items[i] == EntryDoc(entries[i]);
    }
    assert EntryNames(items) == O.OriginsOf(entries);
  }

  lemma ExclusionsBack(entries: seq<O.OriginEntry>)
    ensures ExclusionNames(E.DList(EntryDocs(entries))) == Some(O.OriginsOf(entries))
  {
    NamesBack(entries);
    if entries == [] {
      assert O.OriginsOf(entries) == [];
    } else {
      assert EntryDocs(entries) != [];
    }
  }

  lemma CheckListMeans(names: seq<string>)
    ensures CheckList(names).None? <==> CanonicalNames(names)
  {
  }

  lemma CheckNamesMean(names: seq<string>, excluded: seq<string>)
    ensures CheckNames(Some(names), Some(excluded)).None? <==>
              CanonicalNames(names) && (excluded == [] || CanonicalNames(excluded))
              && exists n :: n in names && n !in excluded
  {
    CheckListMeans(names);
    CheckListMeans(excluded);
  }

  lemma CheckNamesIff(a: Authorization)
    ensures CheckNames(Some(O.OriginsOf(a.origins)), Some(O.OriginsOf(a.exclusions))).None? <==>
              ListOk(a.origins) && (a.exclusions == [] || ListOk(a.exclusions)) && O.Effective(a.origins, a.exclusions) != []
  {
    EffectiveNonEmpty(a.origins, a.exclusions);
    assert O.OriginsOf(a.exclusions) == [] <==> a.exclusions == [];
    CheckNamesMean(O.OriginsOf(a.origins), O.OriginsOf(a.exclusions));
  }

  /** The record as far as its own snapshot can tell: everything but the status. */
  predicate Rendered(cfg: E.Config, a: Authorization, now: DateTime) {
    && InWindow(a, now) && a.policyVersion == cfg.policyVersion && a.methods == E.LIVE_METHODS
    && ListOk(a.origins) && (a.exclusions == [] || ListOk(a.exclusions))
    && O.Effective(a.origins, a.exclusions) != []
  }

  lemma TextDocsInjective(a: seq<string>, b: seq<string>)
    ensures E.TextDocs(a) == E.TextDocs(b) <==> a == b
  {
    if E.TextDocs(a) == E.TextDocs(b) {
      assert |a| == |E.TextDocs(a)| == |b|;
      forall i | 0 <= i < |a| ensures a[i] == b[i] {
        assert E.TextDocs(a)[i] == E.TextDocs(b)[i];
      }
    }
  }

  lemma PolicyIff(cfg: E.Config, a: Authorization)
    ensures CheckPolicy(cfg, PayloadFields(a)).None? <==>
              a.policyVersion == cfg.policyVersion && a.methods == E.LIVE_METHODS
  {
    TextDocsInjective(a.methods, E.LIVE_METHODS);
  }

  /** The policy that a stored core must state: the current version, GET on "/" only, no redirects, no discovery. */
  lemma PolicyMeans(cfg: E.Config, core: map<E.Key, E.Doc>)
    ensures CheckPolicy(cfg, core).None? <==>
              && E.Get(core, E.FollowRedirects) == E.DBool(false) && E.Get(core, E.Discovery) == E.DBool(false)
              && E.Get(core, E.PolicyVersion) == E.DText(cfg.policyVersion)
              && E.Get(core, E.Methods) == E.DList([E.DText("GET")]) && E.Get(core, E.Paths) == E.DList([E.DText("/")])
  {
    assert E.TextDocs(["GET"]) == [E.DText("GET")] && E.TextDocs(["/"]) == [E.DText("/")];
  }

  lemma TimesBack(a: Authorization)
    requires Valid(a.validFrom) && Valid(a.validUntil)
    ensures ParsedTime(PayloadFields(a), E.ValidFrom) == Some(a.validFrom)
    ensures ParsedTime(PayloadFields(a), E.ValidUntil) == Some(a.validUntil)
  {
    assert E.Text(PayloadFields(a), E.ValidFrom) == Some(UtcIso(a.validFrom));
    assert E.Text(PayloadFields(a), E.ValidUntil) == Some(UtcIso(a.validUntil));
    UtcRoundTrip(a.validFrom);
    UtcRoundTrip(a.validUntil);
  }

  lemma WindowIff(a: Authorization, now: DateTime)
    requires Valid(a.validFrom) && Valid(a.validUntil)
    ensures CheckWindow(ParsedTime(PayloadFields(a), E.ValidFrom), ParsedTime(PayloadFields(a), E.ValidUntil), now).None?
            <==> InWindow(a, now)
  {
    TimesBack(a);
  }

  lemma VerifyCoreMeans(cfg: E.Config, core: map<E.Key, E.Doc>, now: DateTime)
    ensures VerifyCore(cfg, core, now).Success? <==>
              E.IdOf(cfg, core, E.AuthorizationId).Some? && E.IdOf(cfg, core, E.ProjectId).Some?
              && CheckPolicy(cfg, core).None?
              && CheckNames(Names(E.Get(core, E.Origins)), ExclusionNames(E.Get(core, E.Exclusions))).None?
              && CheckWindow(ParsedTime(core, E.ValidFrom), ParsedTime(core, E.ValidUntil), now).None?
    ensures VerifyCore(cfg, core, now).Success? ==>
              var ids := VerifyCore(cfg, core, now).value;
              E.IdOf(cfg, core, E.AuthorizationId) == Some(ids.0) && E.IdOf(cfg, core, E.ProjectId) == Some(ids.1)
  {
  }

  /** A rendering verifies on its own exactly when the record behind it is still renderable. */
  lemma VerifyCoreIff(cfg: E.Config, a: Authorization, now: DateTime)
    requires RowOk(cfg, a)
    ensures VerifyCore(cfg, PayloadFields(a), now).Success? <==> Rendered(cfg, a, now)
    ensures VerifyCore(cfg, PayloadFields(a), now).Success? ==>
              VerifyCore(cfg, PayloadFields(a), now).value == (a.id, a.projectId)
  {
    NamesBack(a.origins);
    ExclusionsBack(a.exclusions);
    CheckNamesIff(a);
    PolicyIff(cfg, a);
    WindowIff(a, now);
    CoreIds(cfg, a);
    VerifyCoreMeans(cfg, PayloadFields(a), now);
  }

  lemma CoreIds(cfg: E.Config, a: Authorization)
    requires RowOk(cfg, a)
    ensures E.IdOf(cfg, PayloadFields(a), E.AuthorizationId) == Some(a.id)
    ensures E.IdOf(cfg, PayloadFields(a), E.ProjectId) == Some(a.projectId)
    ensures E.Get(PayloadFields(a), E.Origins) == E.DList(EntryDocs(a.origins))
    ensures E.Get(PayloadFields(a), E.Exclusions) == E.DList(EntryDocs(a.exclusions))
  {
  }

  /** With its origins canonical, a record renders exactly when it is active and otherwise renderable. */
  lemma PayloadIff(cfg: E.Config, a: Authorization, now: DateTime)
    requires ListOk(a.origins)
    ensures Payload(cfg, a, now).Success? <==>
              a.status == Active && InWindow(a, now) && a.policyVersion == cfg.policyVersion
              && a.methods == E.LIVE_METHODS && O.Effective(a.origins, a.exclusions) != []
    ensures Payload(cfg, a, now).Success? ==> Payload(cfg, a, now).value == PayloadFields(a)
  {
    if O.Effective(a.origins, a.exclusions) != [] {
      EffectiveParses(a.origins, a.exclusions);
    }
  }

  lemma EffectiveParses(origins: seq<O.OriginEntry>, exclusions: seq<O.OriginEntry>)
    requires ListOk(origins) && O.Effective(origins, exclusions) != []
    ensures var names := O.OriginsOf(O.Effective(origins, exclusions));
            O.ParseList(names).Some? && CanonicalNames(names)
  {
    CanonicalNamesIff(O.OriginsOf(origins));
    EffectiveNames(origins, exclusions);
    CanonicalNamesIff(O.OriginsOf(O.Effective(origins, exclusions)));
  }

  lemma CoreOfDigest(cfg: E.Config, core: map<E.Key, E.Doc>)
    requires E.Digest !in core
    ensures WithDigest(cfg, core).DDict? && Core(WithDigest(cfg, core).fields) == core
    ensures Anchored(cfg, WithDigest(cfg, core), Some(cfg.digest(E.DDict(core))))
  {
  }

  lemma AnchoredIs(cfg: E.Config, snapshot: E.Doc, stored: Option<string>)
    requires Anchored(cfg, snapshot, stored)
    ensures snapshot == WithDigest(cfg, Core(snapshot.fields))
    ensures stored == Some(cfg.digest(E.DDict(Core(snapshot.fields))))
  {
    assert snapshot.fields == Core(snapshot.fields)[E.Digest := snapshot.fields[E.Digest]];
  }

  // ----- acceptance ------------------------------------------------------

  /** The scan carries the rendering of its parent, anchored twice, and a conforming profile. */
  predicate Undrifted(cfg: E.Config, parent: Authorization, scan: LiveScan, now: DateTime) {
    && Usable(cfg, parent, now)
    && scan.snapshot == WithDigest(cfg, PayloadFields(parent))
    && scan.snapshotDigest == Some(cfg.digest(E.DDict(PayloadFields(parent))))
    && scan.authorizationId == Some(parent.id) && scan.projectId == parent.projectId
    && E.Conforms(cfg, scan.profile, scan.profileDigest, AnchorsOf(scan, parent.id))
  }

  /** The parent exists under the id the scan refers to, and nothing has drifted. */
  predicate Acceptable(cfg: E.Config, auths: map<Id, Authorization>, scan: LiveScan, now: DateTime) {
    scan.authorizationId.Some? && scan.authorizationId.value in auths
    && Undrifted(cfg, auths[scan.authorizationId.value], scan, now)
  }

  /** No stored record's rendering collides with the scan's snapshot: all that soundness asks of SHA-256. */
  predicate CollisionFree(cfg: E.Config, auths: map<Id, Authorization>, scan: LiveScan) {
    scan.snapshot.DDict? ==>
      forall id :: id in auths ==>
        E.NoCollision(cfg, E.DDict(PayloadFields(auths[id])), E.DDict(Core(scan.snapshot.fields)))
  }

  lemma AcceptedIsUndrifted(cfg: E.Config, auths: map<Id, Authorization>, scan: LiveScan, now: DateTime)
    requires StoreOk(cfg, auths) && CollisionFree(cfg, auths, scan) && Verify(cfg, auths, scan, now).Success?
    ensures Acceptable(cfg, auths, scan, now)
  {
    var ids := VerifySnapshot(cfg, scan.snapshot, scan.snapshotDigest, now).value;
    var parent := auths[ids.0];
    AnchoredIs(cfg, scan.snapshot, scan.snapshotDigest);
    var core := Core(scan.snapshot.fields);
    SameRendering(cfg, parent, core, now);
    VerifyCoreIff(cfg, parent, now);
    E.ProfileExact(cfg, scan.profile, scan.profileDigest, AnchorsOf(scan, parent.id));
  }

  /** Equal digests of a fresh rendering and the stored core mean equal documents. */
  lemma SameRendering(cfg: E.Config, parent: Authorization, core: map<E.Key, E.Doc>, now: DateTime)
    requires E.NoCollision(cfg, E.DDict(PayloadFields(parent)), E.DDict(core)) && Payload(cfg, parent, now).Success?
    requires cfg.digest(E.DDict(Payload(cfg, parent, now).value)) == cfg.digest(E.DDict(core))
    ensures core == PayloadFields(parent) && parent.status == Active
  {
    assert E.DDict(Payload(cfg, parent, now).value) == E.DDict(core);
  }

  lemma NoDigestKey(a: Authorization)
    ensures E.Digest !in PayloadFields(a)
  {
  }

  lemma VerifyAnchored(cfg: E.Config, core: map<E.Key, E.Doc>, now: DateTime)
    requires E.Digest !in core
    ensures var snapshot := WithDigest(cfg, core);
            VerifySnapshot(cfg, snapshot, Some(cfg.digest(E.DDict(core))), now) == VerifyCore(cfg, core, now)
  {
    CoreOfDigest(cfg, core);
  }

  lemma UndriftedSnapshot(cfg: E.Config, parent: Authorization, scan: LiveScan, now: DateTime)
    requires RowOk(cfg, parent) && Undrifted(cfg, parent, scan, now)
    ensures VerifySnapshot(cfg, scan.snapshot, scan.snapshotDigest, now) == Success((parent.id, parent.projectId))
    ensures scan.snapshot.DDict? && Core(scan.snapshot.fields) == PayloadFields(parent)
  {
    NoDigestKey(parent);
    CoreOfDigest(cfg, PayloadFields(parent));
    VerifyAnchored(cfg, PayloadFields(parent), now);
    VerifyCoreIff(cfg, parent, now);
  }

  lemma UndriftedParent(cfg: E.Config, parent: Authorization, scan: LiveScan, now: DateTime)
    requires RowOk(cfg, parent) && Undrifted(cfg, parent, scan, now)
    requires scan.snapshot.DDict? && Core(scan.snapshot.fields) == PayloadFields(parent)
    ensures VerifyAgainst(cfg, parent, scan, (parent.id, parent.projectId), now) == Success((parent.id, parent.projectId))
  {
    PayloadIff(cfg, parent, now);
    E.ProfileExact(cfg, scan.profile, scan.profileDigest, AnchorsOf(scan, parent.id));
  }

  lemma UndriftedIsAccepted(cfg: E.Config, auths: map<Id, Authorization>, scan: LiveScan, now: DateTime)
    requires StoreOk(cfg, auths) && Acceptable(cfg, auths, scan, now)
    ensures Verify(cfg, auths, scan, now) == Success((scan.authorizationId.value, scan.projectId))
  {
    var parent := auths[scan.authorizationId.value];
    UndriftedSnapshot(cfg, parent, scan, now);
    UndriftedParent(cfg, parent, scan, now);
  }

  /**
   A live scan is accepted exactly when its parent exists, is active, in its window and on the
   current policy, the snapshot is the parent's rendering under both digests, the ids of scan,
   snapshot, parent and profile agree, and the profile is the pinned one. Only the direction
   from acceptance needs the digest to tell renderings apart.
   */
  lemma VerifyIff(cfg: E.Config, auths: map<Id, Authorization>, scan: LiveScan, now: DateTime)
    requires StoreOk(cfg, auths) && CollisionFree(cfg, auths, scan)
    ensures Verify(cfg, auths, scan, now).Success? <==> Acceptable(cfg, auths, scan, now)
  {
    if Verify(cfg, auths, scan, now).Success? {
      AcceptedIsUndrifted(cfg, auths, scan, now);
    }
    if Acceptable(cfg, auths, scan, now) {
      UndriftedIsAccepted(cfg, auths, scan, now);
    }
  }
}
