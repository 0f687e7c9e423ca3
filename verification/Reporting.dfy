/**
 What a pass of the common controller leaves behind when no call fails: which error is put on a
 snapshot, which finalizers come and go, what is marked and who is adopted, exactly.
 */
module Reporting {
  import opened Objects
  import opened Sidecar
  import opened Cluster
  import opened Common

  // ---- Calls ----

  /** A call is applied unless it is rejected, and succeeds only if its answer arrives. */
  lemma FateDecides(c: Ctx, step: CommonStep)
    requires CommonMakes(c.w, step) && NameIsFree(c.w, step)
    ensures var r := Call(c, step);
            && (r.ok <==> c.fates == [] || c.fates[0] == Fine)
            && r.ctx.w == (if c.fates != [] && c.fates[0] == Rejected then c.w else ApplyCommon(c.w, step))
            && r.ctx.fates == (if c.fates == [] then [] else c.fates[1..])
  {}

  // ---- Errors on the snapshot ----

  predicate Says(st: Option<SnapshotStatus>, m: Message) {
    st.Some? && st.value.error.Some? && st.value.error.value.message == m
  }

  /** The error is there with its time, and only readiness may have been withdrawn besides. */
  predicate Reports(prior: Option<SnapshotStatus>, st: Option<SnapshotStatus>, now: int, notReady: bool, m: Message) {
    var p := if prior.Some? then prior.value else EMPTY_SNAPSHOT_STATUS;
    && st.Some? && st.value.error == Some(StatusError(Some(now), m))
    && st.value.ready == (if notReady then Some(false) else p.ready)
    && st.value.bound == p.bound && st.value.created == p.created && st.value.size == p.size && st.value.groupName == p.groupName
  }

  /** The message is on the snapshot, just written or from before; otherwise the world is the same. */
  ghost predicate OnlyReported(w: World, w': World, l: Lookup, key: Key, notReady: bool, m: Message) {
    && key in w.snapshots && key in w'.snapshots
    && w' == w.(snapshots := w.snapshots[key := w.snapshots[key].(status := w'.snapshots[key].status)], log := w'.log)
    && (if Says(w.snapshots[key].status, m) then w'.snapshots[key].status == w.snapshots[key].status
        else Reports(w.snapshots[key].status, w'.snapshots[key].status, l.now, notReady, m))
  }

  lemma ErrorIsReported(c: Ctx, l: Lookup, key: Key, s: Snapshot, notReady: bool, m: Message)
    requires c.fates == [] && key in c.w.snapshots && c.w.snapshots[key] == s && (s.deleted ==> s.finalizers != [])
    ensures OnlyReported(c.w, UpdateErrorStatus(c, l, key, s, notReady, m).ctx.w, l, key, notReady, m)
    ensures UpdateErrorStatus(c, l, key, s, notReady, m).ok
  {
    if Says(s.status, m) {
      assert c.w.snapshots[key := s] == c.w.snapshots;
    } else {
      ErrorIsWritten(c, l, key, s, notReady, m);
      ErrorFields(s.status, l.now, notReady, m);
    }
  }

  lemma ErrorFields(st: Option<SnapshotStatus>, now: int, notReady: bool, m: Message)
    ensures Reports(st, Some(WithError(st, now, notReady, m)), now, notReady, m)
  {}

  lemma ErrorIsWritten(c: Ctx, l: Lookup, key: Key, s: Snapshot, notReady: bool, m: Message)
    requires c.fates == [] && key in c.w.snapshots && c.w.snapshots[key] == s && (s.deleted ==> s.finalizers != []) && !Says(s.status, m)
    ensures var e := UpdateErrorStatus(c, l, key, s, notReady, m);
            e.ok && e.ctx.w == c.w.(
              snapshots := c.w.snapshots[key := s.(status := Some(WithError(s.status, l.now, notReady, m)))],
              log := e.ctx.w.log)
  {}

  /** A snapshot that asks for its class in vain. */
  predicate ClassGone(s: Snapshot, l: Lookup) {
    if s.className.Some? then s.className.value !in l.classes else s.contentName.None? && s.parent.None?
  }

  /** Without its class a live snapshot is told so, stays as ready as it was, and nothing else happens. */
  lemma MissingClassIsReported(w: World, l: Lookup, key: Key)
    requires key in w.snapshots && !w.snapshots[key].deleted && ClassGone(w.snapshots[key], l)
    ensures var r := SyncSnapshotByKey(Start(w, []), l, key);
            !r.ok && OnlyReported(w, r.ctx.w, l, key, false, ClassMissing)
  {
    ErrorIsReported(Start(w, []), l, key, w.snapshots[key], false, ClassMissing);
  }

  /** A live snapshot with its class, already protected and not ready. */
  predicate Unready(s: Snapshot, l: Lookup) {
    !s.deleted && !IsSnapshotReady(s) && SnapshotAsSource in s.finalizers && !ClassGone(s, l)
  }

  /** While the snapshot is not ready its own claim is in use. */
  lemma OwnClaimStays(c: Ctx, key: Key, s: Snapshot)
    requires key in c.w.snapshots && c.w.snapshots[key] == s && !s.deleted && !IsSnapshotReady(s)
    ensures RemoveClaimProtection(c, key, s, None) == Outcome(c, true)
  {
    if s.claimName.Some? {
      assert UsesClaim(key, s, Key(key.namespace, s.claimName.value));
    }
  }

  lemma UnreadyPass(w: World, l: Lookup, key: Key, s: Snapshot)
    requires key in w.snapshots && w.snapshots[key] == s && Unready(s, l) && s.claimName.Some? != s.contentName.Some?
    ensures var f := AddFinalizers(Start(w, []), l, key, s);
            SyncSnapshotByKey(Start(w, []), l, key) == if f.ok then SyncUnready(f.ctx, l, key, s) else f
  {
    OwnClaimStays(Start(w, []), key, s);
  }

  /** Both sources, or none. */
  lemma InvalidSourceIsReported(w: World, l: Lookup, key: Key)
    requires key in w.snapshots && Unready(w.snapshots[key], l)
    requires w.snapshots[key].claimName.Some? == w.snapshots[key].contentName.Some?
    ensures var r := SyncSnapshotByKey(Start(w, []), l, key);
            !r.ok && OnlyReported(w, r.ctx.w, l, key, true, SourceInvalid)
  {
    OwnClaimStays(Start(w, []), key, w.snapshots[key]);
    ErrorIsReported(Start(w, []), l, key, w.snapshots[key], true, SourceInvalid);
  }

  /** The content named by a pre-provisioned snapshot is missing, was made from a volume, or is for another snapshot. */
  lemma UnfitContentIsReported(w: World, l: Lookup, key: Key, n: string)
    requires key in w.snapshots && Unready(w.snapshots[key], l)
    requires w.snapshots[key].contentName == Some(n) && w.snapshots[key].claimName.None? && n != ""
    requires n !in w.contents || w.contents[n].snapshotHandle.None? || w.contents[n].refKey != key
             || w.contents[n].refUid !in {"", w.snapshots[key].uid}
    ensures var r := SyncSnapshotByKey(Start(w, []), l, key);
            var m := if n !in w.contents then ContentMissing
                     else if w.contents[n].snapshotHandle.None? then ContentMismatch else ContentMisbound;
            !r.ok && OnlyReported(w, r.ctx.w, l, key, true, m)
  {
    var s := w.snapshots[key];
    UnreadyPass(w, l, key, s);
    ErrorIsReported(Start(w, []), l, key, s, true, if n !in w.contents then ContentMissing
                                                   else if w.contents[n].snapshotHandle.None? then ContentMismatch else ContentMisbound);
  }

  /** The content under the name of a dynamic snapshot was imported, or is for another snapshot. */
  lemma ForeignContentIsReported(w: World, l: Lookup, key: Key)
    requires key in w.snapshots && Unready(w.snapshots[key], l)
    requires w.snapshots[key].contentName.None? && w.snapshots[key].claimName.Some?
    requires var n := DynamicContentName(w.snapshots[key].uid);
             n in w.contents && (w.contents[n].volumeHandle.None? || !RefersTo(w.contents[n], key, w.snapshots[key]))
    ensures var r := SyncSnapshotByKey(Start(w, []), l, key);
            var m := if w.contents[DynamicContentName(w.snapshots[key].uid)].volumeHandle.None? then ContentMismatch else ContentMisbound;
            !r.ok && OnlyReported(w, r.ctx.w, l, key, true, m)
  {
    var s := w.snapshots[key];
    UnreadyPass(w, l, key, s);
    ErrorIsReported(Start(w, []), l, key, s, true,
                    if w.contents[DynamicContentName(s.uid)].volumeHandle.None? then ContentMismatch else ContentMisbound);
  }

  /** The claim cannot be protected: it is missing, or on its way out without the finalizer. */
  predicate Unprotectable(w: World, ck: Key) {
    ck !in w.claims || (ClaimAsSource !in w.claims[ck].finalizers && w.claims[ck].deleted)
  }

  lemma MissingClaimIsReported(w: World, l: Lookup, key: Key)
    requires key in w.snapshots && Unready(w.snapshots[key], l) && w.snapshots[key].parent.None?
    requires w.snapshots[key].contentName.None? && w.snapshots[key].claimName.Some?
    requires DynamicContentName(w.snapshots[key].uid) !in w.contents
    requires Unprotectable(w, Key(key.namespace, w.snapshots[key].claimName.value))
    ensures var r := SyncSnapshotByKey(Start(w, []), l, key);
            !r.ok && OnlyReported(w, r.ctx.w, l, key, true, CreationFailed)
  {
    var s := w.snapshots[key];
    UnreadyPass(w, l, key, s);
    ErrorIsReported(Start(w, []), l, key, s, true, CreationFailed);
  }

  /** The group content named by the status of a member's content is not known. */
  lemma UnknownGroupIsReported(c: Ctx, l: Lookup, key: Key, n: string)
    requires c.fates == [] && key in c.w.snapshots && !c.w.snapshots[key].deleted && c.w.snapshots[key].status.Some?
    requires c.w.snapshots[key].status.value.bound == Some(n) && n in c.w.contents && GroupNameFor(l, c.w.contents[n].status).None?
    ensures var r := SyncMember(c, l, key, c.w.snapshots[key]);
            !r.ok && OnlyReported(c.w, r.ctx.w, l, key, false, StatusUpdateFailed)
  {
    ErrorIsReported(c, l, key, c.w.snapshots[key], false, StatusUpdateFailed);
  }

  /** Nor the one named by an imported content, already bound. */
  lemma UnknownGroupOfImportedIsReported(c: Ctx, l: Lookup, key: Key, s: Snapshot, n: string)
    requires c.fates == [] && key in c.w.snapshots && c.w.snapshots[key] == s && !s.deleted && s.contentName.Some?
    requires FindPreprovisioned(c.w, key, s) == Found(n) && c.w.contents[n].refUid != "" && c.w.contents[n].className.Some?
    requires GroupNameFor(l, c.w.contents[n].status).None?
    ensures var r := SyncPreprovisioned(c, l, key, s);
            !r.ok && OnlyReported(c.w, r.ctx.w, l, key, false, StatusUpdateFailed)
  {
    ErrorIsReported(c, l, key, s, false, StatusUpdateFailed);
  }

  /** For a dynamic content the snapshot is called not ready as well. */
  lemma UnknownGroupOfDynamicIsReported(c: Ctx, l: Lookup, key: Key, s: Snapshot, n: string)
    requires c.fates == [] && key in c.w.snapshots && c.w.snapshots[key] == s && !s.deleted && s.contentName.None? && s.parent.None?
    requires FindDynamic(c.w, key, s) == Found(n) && c.w.contents[n].snapshotHandle.None?
    requires GroupNameFor(l, c.w.contents[n].status).None?
    ensures var r := SyncDynamic(c, l, key, s);
            !r.ok && OnlyReported(c.w, r.ctx.w, l, key, true, StatusUpdateFailed)
  {
    ErrorIsReported(c, l, key, s, true, StatusUpdateFailed);
  }

  /** A binding the API refuses is reported, and nothing is bound. */
  lemma FailedBindingIsReported(c: Ctx, l: Lookup, key: Key, s: Snapshot, n: string)
    requires c.fates == [Rejected] && key in c.w.snapshots && c.w.snapshots[key] == s && !s.deleted && s.contentName.Some?
    requires FindPreprovisioned(c.w, key, s) == Found(n) && (c.w.contents[n].refUid == "" || c.w.contents[n].className.None?)
    ensures var r := SyncPreprovisioned(c, l, key, s);
            !r.ok && OnlyReported(c.w, r.ctx.w, l, key, true, BindFailed)
  {
    var b := Call(c, BindContent(n, key, s.className));
    assert !b.ok && b.ctx.w == c.w && b.ctx.fates == [];
    ErrorIsReported(b.ctx, l, key, s, true, BindFailed);
  }

  // ---- A ready snapshot ----

  /** A broken binding is reported; a snapshot without owner that names an existing group is adopted by it; nothing else happens. */
  lemma ReadySnapshotIff(c: Ctx, l: Lookup, key: Key, s: Snapshot)
    requires c.fates == [] && key in c.w.snapshots && c.w.snapshots[key] == s && !s.deleted && IsSnapshotReady(s) && IsBoundNameSet(s)
    ensures var r := SyncReady(c, l, key, s);
            var n := s.status.value.bound.value;
            var g := if s.status.value.groupName.Some? then s.status.value.groupName.value else "";
            if n !in c.w.contents then OnlyReported(c.w, r.ctx.w, l, key, true, ContentMissing)
            else if c.w.contents[n].refKey != key || c.w.contents[n].refUid != s.uid then
              OnlyReported(c.w, r.ctx.w, l, key, true, ContentMisbound)
            else if s.parent.None? && g != "" && Key(key.namespace, g) in c.w.groups then
              r.ok && r.ctx.w.snapshots == c.w.snapshots[key := s.(parent := Some(g))] && r.ctx.w.contents == c.w.contents
            else r.ctx == c && (r.ok <==> s.parent.Some? || g == "")
  {
    ErrorIsReported(c, l, key, s, true, ContentMissing);
    ErrorIsReported(c, l, key, s, true, ContentMisbound);
  }

  // ---- Finalizers of the snapshot ----

  /** The content a live snapshot has, if it has one that fits. */
  predicate Has(w: World, key: Key, s: Snapshot, n: string) {
    && n in w.contents && w.contents[n].refKey == key
    && if s.contentName.Some? then n == s.contentName.value && w.contents[n].snapshotHandle.Some? && w.contents[n].refUid in {"", s.uid}
       else n == DynamicContentName(s.uid) && w.contents[n].volumeHandle.Some? && w.contents[n].refUid == s.uid
  }

  /**
   The as-source finalizer is put on every live snapshot; the bound finalizer exactly on one that is bound by
   name and has a Delete-policy content. Nothing else changes.
   */
  lemma FinalizersAddedIff(c: Ctx, l: Lookup, key: Key, s: Snapshot, n: string)
    requires c.fates == [] && key in c.w.snapshots && c.w.snapshots[key] == s && !s.deleted
    requires n == (if s.contentName.Some? then s.contentName.value else DynamicContentName(s.uid)) && n != ""
    requires n in c.w.contents ==> Has(c.w, key, s, n)
    ensures var r := AddFinalizers(c, l, key, s);
            var bound := s.status.Some? && s.status.value.bound.Some? && s.status.value.bound.value != "";
            && r.ok && r.ctx.w == c.w.(snapshots := r.ctx.w.snapshots, log := r.ctx.w.log) && key in r.ctx.w.snapshots
            && r.ctx.w.snapshots == c.w.snapshots[key := s.(finalizers := r.ctx.w.snapshots[key].finalizers)]
            && (forall f :: f in r.ctx.w.snapshots[key].finalizers <==>
                  || f in s.finalizers
                  || f == SnapshotAsSource
                  || (f == SnapshotBound && bound && n in c.w.contents && c.w.contents[n].policy == Delete))
  {
    assert c.w.snapshots[key := s.(finalizers := s.finalizers)] == c.w.snapshots;
  }

  // ---- The source claim ----

  /** Another snapshot of the namespace is still to be taken from the claim; `skip` does not count once it is deleted. */
  ghost predicate Needed(w: World, ck: Key, skip: Option<Key>) {
    exists k :: k in w.snapshots && k.namespace == ck.namespace && w.snapshots[k].claimName == Some(ck.name)
                && !(w.snapshots[k].status.Some? && w.snapshots[k].status.value.ready == Some(true))
                && (skip != Some(k) || !w.snapshots[k].deleted)
  }

  lemma NeededIffUsed(w: World, ck: Key, skip: Option<Key>)
    ensures Needed(w, ck, skip) <==> ClaimInUse(w, ck, skip)
  {
    if ClaimInUse(w, ck, skip) {
      var k :| k in w.snapshots && UsesClaim(k, w.snapshots[k], ck) && !(Some(k) == skip && w.snapshots[k].deleted);
      assert k.namespace == ck.namespace && w.snapshots[k].claimName == Some(ck.name);
    }
    if Needed(w, ck, skip) {
      var k :| k in w.snapshots && k.namespace == ck.namespace && w.snapshots[k].claimName == Some(ck.name)
               && !(w.snapshots[k].status.Some? && w.snapshots[k].status.value.ready == Some(true))
               && (skip != Some(k) || !w.snapshots[k].deleted);
      assert UsesClaim(k, w.snapshots[k], ck);
    }
  }

  /** The claim is released exactly when no snapshot needs it any more, and then loses just this finalizer. */
  lemma ClaimReleasedIff(c: Ctx, key: Key, s: Snapshot, skip: Option<Key>, ck: Key)
    requires c.fates == [] && s.claimName == Some(ck.name) && ck.namespace == key.namespace && ck.name != ""
    requires ck in c.w.claims && ClaimAsSource in c.w.claims[ck].finalizers
    ensures var claims := RemoveClaimProtection(c, key, s, skip).ctx.w.claims;
            && (Needed(c.w, ck, skip) ==> claims == c.w.claims)
            && (!Needed(c.w, ck, skip) ==>
                  && (forall k :: k != ck ==> (k in claims <==> k in c.w.claims) && (k in claims ==> claims[k] == c.w.claims[k]))
                  && (ck in claims ==>
                        && claims[ck].(finalizers := c.w.claims[ck].finalizers) == c.w.claims[ck]
                        && forall f :: f in claims[ck].finalizers <==> f in c.w.claims[ck].finalizers && f != ClaimAsSource)
                  && (ck !in claims <==> c.w.claims[ck].deleted && forall f <- c.w.claims[ck].finalizers :: f == ClaimAsSource))
  {
    NeededIffUsed(c.w, ck, skip);
    var fs := Without(c.w.claims[ck].finalizers, ClaimAsSource);
    assert fs != [] ==> fs[0] in fs;
  }

  lemma ClaimProtectedIff(c: Ctx, key: Key, s: Snapshot, ck: Key)
    requires c.fates == [] && s.claimName == Some(ck.name) && ck.namespace == key.namespace && ck.name != ""
    ensures var r := ProtectClaim(c, key, s);
            && (r.ok <==> !Unprotectable(c.w, ck))
            && (!r.ok ==> r.ctx == c)
            && (r.ok ==>
                  && ck in r.ctx.w.claims && ClaimAsSource in r.ctx.w.claims[ck].finalizers
                  && r.ctx.w.claims == c.w.claims[ck := c.w.claims[ck].(finalizers := r.ctx.w.claims[ck].finalizers)]
                  && forall f :: f in r.ctx.w.claims[ck].finalizers <==> f in c.w.claims[ck].finalizers || f == ClaimAsSource)
  {
    if ck in c.w.claims {
      assert c.w.claims[ck := c.w.claims[ck]] == c.w.claims;
    }
  }

  // ---- A content ----

  /** The snapshot a bound content points at is on its way out. */
  predicate Leaving(w: World, c: Content) {
    && c.refKey in w.snapshots && w.snapshots[c.refKey].uid == c.refUid && w.snapshots[c.refKey].deleted
    && (SnapshotAsSource in w.snapshots[c.refKey].finalizers || SnapshotBound in w.snapshots[c.refKey].finalizers)
  }

  /** A bound content gets its finalizer first. */
  predicate NeedsProtection(c: Content) {
    c.volumeHandle.Some? != c.snapshotHandle.Some? && c.refUid != "" && !c.deleted && ContentBound !in c.finalizers
  }

  lemma ContentPassProtectsIff(c: Ctx, n: string)
    requires c.fates == [] && n in c.w.contents && (c.w.contents[n].deleted ==> c.w.contents[n].finalizers != [])
    ensures var w' := SyncContent(c, n).ctx.w;
            if NeedsProtection(c.w.contents[n]) then
              w' == c.w.(contents := c.w.contents[n := c.w.contents[n].(finalizers := c.w.contents[n].finalizers + [ContentBound])])
            else n in w'.contents && w'.contents[n].finalizers == c.w.contents[n].finalizers
  {}

  /** One that has it, or is deleted, is marked exactly if its snapshot is leaving; nothing else happens to it or to anything else. */
  lemma ContentPassMarksIff(c: Ctx, n: string)
    requires c.fates == [] && n in c.w.contents && !NeedsProtection(c.w.contents[n])
    requires c.w.contents[n].deleted ==> c.w.contents[n].finalizers != []
    ensures var r := SyncContent(c, n);
            var old_ := c.w.contents[n];
            && (r.ok <==> HasOneSource(old_))
            && if HasOneSource(old_) && old_.refUid != "" && Leaving(c.w, old_) && BeingDeleted !in old_.annotations then
                 && n in r.ctx.w.contents && r.ctx.w == c.w.(contents := c.w.contents[n := r.ctx.w.contents[n]])
                 && r.ctx.w.contents[n] == old_.(annotations := old_.annotations[BeingDeleted := "yes"])
               else r.ctx == c
  {}

  /** And asks for a pass over the snapshot, if the content has what it needs and the snapshot's status lags. */
  lemma EnqueuedIff(w: World, n: string)
    requires n in w.contents
    ensures Enqueues(w, n)
            <==> var c := w.contents[n];
                 && c.volumeHandle.Some? != c.snapshotHandle.Some? && c.refUid != "" && (c.deleted || ContentBound in c.finalizers)
                 && c.refKey in w.snapshots && w.snapshots[c.refKey].uid == c.refUid && NeedsStatusUpdate(w.snapshots[c.refKey], c)
  {}

  // ---- A deleted snapshot ----

  /** While a claim is still being filled from the snapshot, whatever becomes of the calls, nothing of it is let go. */
  lemma RestoringBlocksDeletion(c: Ctx, key: Key, s: Snapshot, ck: Key)
    requires key in c.w.snapshots && c.w.snapshots[key] == s && s.deleted
    requires var n := DeletionContentName(s);
             n in c.w.contents && c.w.contents[n].refKey == key && c.w.contents[n].refUid == s.uid
    requires ck in c.w.claims && ck.namespace == key.namespace
    requires c.w.claims[ck].restores == Some(key.name) && c.w.claims[ck].phase == Pending
    ensures SyncDeleted(c, key, s) == Outcome(c, true)
  {
    assert RestoresFrom(ck, c.w.claims[ck], key);
  }

  /** The name is the one in the status, or else, for a snapshot taken from a claim, the one made from its UID. */
  lemma DeletedUnderIff(s: Snapshot, n: string)
    requires n != ""
    ensures DeletionContentName(s) == n
            <==> if s.status.Some? && s.status.value.bound.Some? && s.status.value.bound.value != "" then s.status.value.bound.value == n
                 else s.claimName.Some? && n == "snapcontent-" + s.uid
  {}
}
