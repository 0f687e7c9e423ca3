/**
 The common controller as it runs: an object that reads and writes the cluster call by
 call. Each method is proved to do what the function of the same name in Common says.
 */
module Controller {
  import opened Objects
  import opened Cluster
  import opened Mirror
  import opened Common
  import Binding

  class CommonController {
    var world: World
    // What becomes of the API calls to come.
    var fates: seq<Fate>
    ghost var past: seq<World>
    ghost var made: seq<CommonStep>
    const lookup: Lookup

    constructor (w: World, fs: seq<Fate>, l: Lookup)
      ensures Now() == Start(w, fs) && lookup == l
    {
      world, fates, past, made, lookup := w, fs, [], [], l;
    }

    ghost function Now(): Ctx
      reads this
    {
      Ctx(world, past, made, fates)
    }

    // ---- API calls ----

    method Write(step: CommonStep) returns (ok: bool)
      requires CommonMakes(world, step)
      modifies this
      ensures Outcome(Now(), ok) == Call(old(Now()), step)
    {
      var fate := Fine;
      if fates != [] {
        fate, fates := fates[0], fates[1..];
      }
      if !NameIsFree(world, step) {
        return false;
      }
      if fate != Rejected {
        past, made := past + [world], made + [step];
        world := ApplyCommon(world, step);
      }
      ok := fate == Fine;
    }

    // ---- Loops over listed objects ----

    method IsPVCBeingUsed(claim: Key, skip: Option<Key>) returns (used: bool)
      ensures used == ClaimInUse(world, claim, skip)
    {
      var rest := world.snapshots.Keys;
      while rest != {}
        invariant rest <= world.snapshots.Keys
        invariant forall k <- world.snapshots.Keys - rest ::
                    !(UsesClaim(k, world.snapshots[k], claim) && !(Some(k) == skip && world.snapshots[k].deleted))
        decreases |rest|
      {
        var k :| k in rest;
        rest := rest - {k};
        var snap := world.snapshots[k];
        if Some(k) == skip && snap.deleted {
          continue;
        }
        if snap.claimName.None? && snap.contentName.Some? {
          continue;
        }
        if UsesClaim(k, snap, claim) {
          return true;
        }
      }
      return false;
    }

    method IsVolumeBeingCreatedFromSnapshot(key: Key) returns (restoring: bool)
      ensures restoring == IsBeingRestored(world, key)
    {
      var rest := world.claims.Keys;
      while rest != {}
        invariant rest <= world.claims.Keys
        invariant forall ck <- world.claims.Keys - rest :: !RestoresFrom(ck, world.claims[ck], key)
        decreases |rest|
      {
        var ck :| ck in rest;
        rest := rest - {ck};
        var claim := world.claims[ck];
        if ck.namespace == key.namespace && claim.restores == Some(key.name) {
          if claim.phase == Pending {
            return true;
          }
        }
      }
      return false;
    }

    // ---- Status ----

    method UpdateErrorStatus(key: Key, s: Snapshot, notReady: bool, message: Message) returns (ok: bool)
      modifies this
      ensures Outcome(Now(), ok) == Common.UpdateErrorStatus(old(Now()), lookup, key, s, notReady, message)
    {
      if s.status.Some? && s.status.value.error.Some? && s.status.value.error.value.message == message {
        return true;
      }
      if !(key in world.snapshots && world.snapshots[key] == s) {
        return false;
      }
      ok := Write(WriteSnapshotStatus(key, WithError(s.status, lookup.now, notReady, message)));
    }

    method UpdateStatus(key: Key, n: string, st: Option<ContentStatus>) returns (ok: bool)
      modifies this
      ensures Outcome(Now(), ok) == Common.UpdateStatus(old(Now()), lookup, key, n, st)
    {
      var group := "";
      if st.Some? && st.value.groupHandle.Some? {
        if st.value.groupHandle.value !in lookup.groupOf {
          return false;
        }
        group := lookup.groupOf[st.value.groupHandle.value];
      }
      if key !in world.snapshots {
        return false;
      }
      var m := MirrorStatus(world.snapshots[key].status, n, st, group);
      if !m.updated {
        return true;
      }
      ok := Write(WriteSnapshotStatus(key, m.status));
    }

    method UpdateStatusOrFail(key: Key, s: Snapshot, n: string, st: Option<ContentStatus>, notReady: bool) returns (ok: bool)
      modifies this
      ensures Outcome(Now(), ok) == Common.UpdateStatusOrFail(old(Now()), lookup, key, s, n, st, notReady)
    {
      ok := UpdateStatus(key, n, st);
      if !ok {
        var _ := UpdateErrorStatus(key, s, notReady, StatusUpdateFailed);
      }
    }

    // ---- The source claim ----

    method CheckAndRemovePVCFinalizer(key: Key, s: Snapshot, skip: Option<Key>) returns (ok: bool)
      modifies this
      ensures Outcome(Now(), ok) == RemoveClaimProtection(old(Now()), key, s, skip)
    {
      if s.claimName.None? || s.claimName.value == "" {
        return true;
      }
      var ck := Key(key.namespace, s.claimName.value);
      if ck !in world.claims || ClaimAsSource !in world.claims[ck].finalizers {
        return true;
      }
      var inUse := IsPVCBeingUsed(ck, skip);
      if inUse {
        return true;
      }
      ok := Write(RemoveClaimFinalizer(ck, skip));
    }

    method EnsurePVCFinalizer(key: Key, s: Snapshot) returns (ok: bool)
      requires s.claimName.Some?
      modifies this
      ensures Outcome(Now(), ok) == ProtectClaim(old(Now()), key, s)
    {
      var ck := Key(key.namespace, s.claimName.value);
      if s.claimName.value == "" || ck !in world.claims {
        return false;
      }
      if ClaimAsSource in world.claims[ck].finalizers {
        return true;
      }
      if world.claims[ck].deleted {
        return false;
      }
      ok := Write(AddClaimFinalizer(ck));
    }

    method CreateSnapshotContent(key: Key, s: Snapshot) returns (ok: bool)
      requires Current(world, key, s) && !s.deleted && s.parent.None? && s.contentName.None? && s.claimName.Some?
      requires DynamicContentName(s.uid) !in world.contents
      modifies this
      ensures Outcome(Now(), ok) == Common.CreateSnapshotContent(old(Now()), lookup, key, s)
    {
      ok := EnsurePVCFinalizer(key, s);
      if !ok {
        return;
      }
      var content := NewContent(world, lookup, key, s);
      if content.None? {
        return false;
      }
      ok := Write(CreateContent(key, content.value));
    }

    // ---- A snapshot that is not ready ----

    method SyncPreprovisioned(key: Key, s: Snapshot) returns (ok: bool)
      requires Current(world, key, s) && !s.deleted && s.contentName.Some?
      modifies this
      ensures Outcome(Now(), ok) == Common.SyncPreprovisioned(old(Now()), lookup, key, s)
    {
      ok := false;
      var found := FindPreprovisioned(world, key, s);
      if found.NoName? {
        return;
      }
      if !found.Found? {
        var _ := UpdateErrorStatus(key, s, true, if found.Missing? then ContentMissing else found.message);
        return;
      }
      var content := world.contents[found.name];
      if content.refUid == "" || content.className.None? {
        var bound := Write(BindContent(found.name, key, s.className));
        if !bound {
          var _ := UpdateErrorStatus(key, s, true, BindFailed);
          return;
        }
      }
      ok := UpdateStatusOrFail(key, s, found.name, content.status, false);
    }

    method SyncMember(key: Key, s: Snapshot) returns (ok: bool)
      modifies this
      ensures Outcome(Now(), ok) == Common.SyncMember(old(Now()), lookup, key, s)
      ensures old(Current(world, key, s)) && !s.deleted && ok ==>
                && s.status.Some? && s.status.value.bound.Some?
                && Binding.Mirrors(old(world), world, lookup, key, s.status.value.bound.value)
    {
      if Current(world, key, s) && !s.deleted {
        Binding.MembersAreMirrored(Now(), lookup, key, s);
      }
      if s.status.None? || s.status.value.bound.None? {
        return false;
      }
      var n := s.status.value.bound.value;
      if n !in world.contents {
        return false;
      }
      ok := UpdateStatusOrFail(key, s, n, world.contents[n].status, false);
    }

    method SyncDynamic(key: Key, s: Snapshot) returns (ok: bool)
      requires Current(world, key, s) && !s.deleted && s.contentName.None? && s.parent.None?
      modifies this
      ensures Outcome(Now(), ok) == Common.SyncDynamic(old(Now()), lookup, key, s)
    {
      ok := false;
      var found := FindDynamic(world, key, s);
      if found.Unfit? {
        var _ := UpdateErrorStatus(key, s, true, found.message);
      } else if found.Found? {
        var content := world.contents[found.name];
        if content.snapshotHandle.Some? {
          var _ := UpdateErrorStatus(key, s, true, HandleSet);
        } else {
          ok := UpdateStatusOrFail(key, world.snapshots[key], found.name, content.status, true);
        }
      } else if s.claimName.None? {
        var _ := UpdateErrorStatus(key, s, true, SourceInvalid);
      } else {
        ok := CreateSnapshotContent(key, s);
        if !ok {
          var _ := UpdateErrorStatus(key, s, true, CreationFailed);
          return;
        }
        ok := UpdateStatusOrFail(key, s, DynamicContentName(s.uid), None, false);
      }
    }

    method SyncUnready(key: Key, s: Snapshot) returns (ok: bool)
      requires Current(world, key, s) && !s.deleted
      modifies this
      ensures Outcome(Now(), ok) == Common.SyncUnready(old(Now()), lookup, key, s)
    {
      if s.contentName.Some? {
        ok := SyncPreprovisioned(key, s);
      } else if s.parent.Some? {
        ok := SyncMember(key, s);
      } else {
        ok := SyncDynamic(key, s);
      }
    }

    // ---- A snapshot that is ready ----

    method SyncReady(key: Key, s: Snapshot) returns (ok: bool)
      requires Current(world, key, s) && IsSnapshotReady(s) && IsBoundNameSet(s)
      modifies this
      ensures Outcome(Now(), ok) == Common.SyncReady(old(Now()), lookup, key, s)
    {
      var n := s.status.value.bound.value;
      if n !in world.contents {
        ok := UpdateErrorStatus(key, s, true, ContentMissing);
        return;
      }
      if !RefersTo(world.contents[n], key, s) {
        ok := UpdateErrorStatus(key, s, true, ContentMisbound);
        return;
      }
      var group := s.status.value.groupName;
      if s.parent.Some? || group.None? || group.value == "" {
        return true;
      }
      if Key(key.namespace, group.value) !in world.groups || world.snapshots[key] != s {
        return false;
      }
      ok := Write(AdoptSnapshot(key, group.value));
    }

    method CheckAndAddSnapshotFinalizers(key: Key, s: Snapshot) returns (ok: bool)
      requires key in world.snapshots && world.snapshots[key] == s && !s.deleted
      modifies this
      ensures Outcome(Now(), ok) == AddFinalizers(old(Now()), lookup, key, s)
    {
      var found := if s.contentName.Some? then FindPreprovisioned(world, key, s) else FindDynamic(world, key, s);
      if found.NoName? {
        return false;
      }
      if found.Unfit? {
        var _ := UpdateErrorStatus(key, s, true, found.message);
        return false;
      }
      var source := NeedsSourceFinalizer(s);
      var bound := false;
      if found.Found? {
        bound := NeedsBoundFinalizer(s) && world.contents[found.name].policy == Delete;
      }
      if !source && !bound {
        return true;
      }
      ok := Write(AddSnapshotFinalizers(key, source, bound));
    }

    // ---- Deletion ----

    method SetAnnBeingDeleted(n: string, key: Key) returns (ok: bool)
      requires CommonMakes(world, SetBeingDeleted(n, key))
      modifies this
      ensures Outcome(Now(), ok) == MarkBeingDeleted(old(Now()), n, key)
    {
      if BeingDeleted in world.contents[n].annotations {
        return true;
      }
      ok := Write(SetBeingDeleted(n, key));
    }

    method RemoveSnapshotFinalizer(key: Key, s: Snapshot, bound: bool, group: bool) returns (ok: bool)
      requires key in world.snapshots && world.snapshots[key] == s && s.deleted
      requires bound ==> !HoldsContent(world, key, s)
      requires group ==> s.status.Some? && s.status.value.groupName.Some?
                         && Key(key.namespace, s.status.value.groupName.value) !in world.groups
      modifies this
      ensures Outcome(Now(), ok) == RemoveFinalizers(old(Now()), key, s, bound, group)
    {
      ok := CheckAndRemovePVCFinalizer(key, s, Some(key));
      if !ok {
        return;
      }
      ok := Write(RemoveSnapshotFinalizers(key, true, bound, group));
    }

    method ReleaseContent(key: Key, s: Snapshot, n: string, group: bool) returns (ok: bool)
      requires key in world.snapshots && world.snapshots[key] == s && s.deleted
      requires n == DeletionContentName(s) && n in world.contents && RefersTo(world.contents[n], key, s)
      requires group ==> s.status.Some? && s.status.value.groupName.Some?
                         && Key(key.namespace, s.status.value.groupName.value) !in world.groups
      modifies this
      ensures Outcome(Now(), ok) == Common.ReleaseContent(old(Now()), key, s, n, group)
    {
      var deleteContent := world.contents[n].policy == Delete;
      ok := SetAnnBeingDeleted(n, key);
      if !ok {
        return;
      }
      if deleteContent {
        if n !in world.contents {
          return false;
        }
        ok := Write(DeleteContent(n));
        if !ok {
          return;
        }
      }
      ok := RemoveSnapshotFinalizer(key, s, !deleteContent, group);
    }

    method ProcessSnapshotWithDeletionTimestamp(key: Key, s: Snapshot) returns (ok: bool)
      requires key in world.snapshots && world.snapshots[key] == s && s.deleted
      modifies this
      ensures Outcome(Now(), ok) == SyncDeleted(old(Now()), key, s)
    {
      var n := DeletionContentName(s);
      var pointsBack := n in world.contents && RefersTo(world.contents[n], key, s);
      if !IsDeletionCandidate(s) {
        return true;
      }
      if pointsBack {
        var restoring := IsVolumeBeingCreatedFromSnapshot(key);
        if restoring {
          return true;
        }
      }
      var removeGroup := false;
      if s.status.Some? && s.status.value.groupName.Some? {
        if Key(key.namespace, s.status.value.groupName.value) in world.groups {
          return false;
        }
        removeGroup := true;
      }
      if pointsBack {
        ok := ReleaseContent(key, s, n, removeGroup);
      } else {
        ok := RemoveSnapshotFinalizer(key, s, true, removeGroup);
      }
    }

    // ---- The passes ----

    method SyncSnapshot(key: Key) returns (ok: bool)
      requires key in world.snapshots
      modifies this
      ensures Outcome(Now(), ok) == Common.SyncSnapshot(old(Now()), lookup, key)
    {
      var s := world.snapshots[key];
      var _ := CheckAndRemovePVCFinalizer(key, s, None);
      if s.deleted {
        ok := ProcessSnapshotWithDeletionTimestamp(key, s);
        return;
      }
      if s.claimName.Some? == s.contentName.Some? {
        var _ := UpdateErrorStatus(key, s, true, SourceInvalid);
        return false;
      }
      ok := CheckAndAddSnapshotFinalizers(key, s);
      if !ok {
        return;
      }
      if !IsSnapshotReady(s) || !IsBoundNameSet(s) {
        ok := SyncUnready(key, s);
      } else {
        ok := SyncReady(key, s);
      }
    }

    method SyncSnapshotByKey(key: Key) returns (ok: bool)
      requires key in world.snapshots
      modifies this
      ensures Outcome(Now(), ok) == Common.SyncSnapshotByKey(old(Now()), lookup, key)
    {
      var s := world.snapshots[key];
      var classFound := s.className.Some? && s.className.value in lookup.classes;
      var classNeeded := s.className.Some? || (s.contentName.None? && s.parent.None?);
      if classNeeded && !classFound {
        var _ := UpdateErrorStatus(key, s, false, ClassMissing);
        if s.className.None? || !s.deleted {
          return false;
        }
        if !(key in world.snapshots && world.snapshots[key] == s) {
          return true;
        }
      }
      ok := SyncSnapshot(key);
    }

    method SyncContent(n: string) returns (ok: bool, enqueue: bool)
      requires n in world.contents
      modifies this
      ensures Outcome(Now(), ok) == Common.SyncContent(old(Now()), n)
      ensures enqueue == old(Enqueues(world, n))
    {
      var content := world.contents[n];
      enqueue := false;
      if content.volumeHandle.None? == content.snapshotHandle.None? {
        return false, false;
      }
      if content.refUid == "" {
        return true, false;
      }
      if NeedsContentFinalizer(content) {
        ok := Write(AddContentFinalizer(n));
        return;
      }
      ok := true;
      var key := content.refKey;
      if key in world.snapshots && world.snapshots[key].uid == content.refUid {
        enqueue := NeedsStatusUpdate(world.snapshots[key], content);
        if IsDeletionCandidate(world.snapshots[key]) {
          ok := SetAnnBeingDeleted(n, key);
        }
      }
    }
  }
}
