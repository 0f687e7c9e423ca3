/**
 When a deleted snapshot object goes: exactly which of the controllers' finalizers keep it in a
 pass, and members of groups that never go because their status does not name the group.
 */
module Departing {
  import opened Objects
  import opened Cluster
  import opened Common
  import opened Teardown

  predicate NamesGroup(s: Snapshot) {
    s.status.Some? && s.status.value.groupName.Some?
  }

  predicate OnlyOurs(fs: seq<Finalizer>) {
    forall f <- fs :: f == SnapshotAsSource || f == SnapshotBound || f == SnapshotInGroup
  }

  /** The group the status names, if it names one, is gone. */
  predicate GroupGone(w: World, key: Key, s: Snapshot) {
    NamesGroup(s) ==> Key(key.namespace, s.status.value.groupName.value) !in w.groups
  }

  // ---- One pass ----

  /** Claims lose at most finalizers. */
  ghost predicate ClaimsShrink(w: World, w': World) {
    forall ck :: ck in w'.claims ==> ck in w.claims && w'.claims[ck].(finalizers := w.claims[ck].finalizers) == w.claims[ck]
  }

  /** The source claim is released as if the snapshot were not there. */
  ghost predicate Released(c: Ctx, d: Ctx, key: Key, s: Snapshot) {
    d.w.claims == RemoveClaimProtection(c, key, s, Some(key)).ctx.w.claims
  }

  /** What becomes of the claim depends on claims and snapshots alone. */
  lemma SameRelease(c: Ctx, d: Ctx, key: Key, s: Snapshot)
    requires c.fates == [] && d.fates == [] && c.w.claims == d.w.claims && c.w.snapshots == d.w.snapshots
    ensures RemoveClaimProtection(c, key, s, Some(key)).ctx.w.claims == RemoveClaimProtection(d, key, s, Some(key)).ctx.w.claims
  {
    if s.claimName.Some? {
      var ck := Key(key.namespace, s.claimName.value);
      assert ClaimInUse(c.w, ck, Some(key)) <==> ClaimInUse(d.w, ck, Some(key)) by {
        if ClaimInUse(c.w, ck, Some(key)) {
          var k :| k in c.w.snapshots && UsesClaim(k, c.w.snapshots[k], ck) && !(Some(k) == Some(key) && c.w.snapshots[k].deleted);
          assert k in d.w.snapshots && UsesClaim(k, d.w.snapshots[k], ck);
        }
        if ClaimInUse(d.w, ck, Some(key)) {
          var k :| k in d.w.snapshots && UsesClaim(k, d.w.snapshots[k], ck) && !(Some(k) == Some(key) && d.w.snapshots[k].deleted);
          assert k in c.w.snapshots && UsesClaim(k, c.w.snapshots[k], ck);
        }
      }
    }
  }

  lemma ClaimRelease(c: Ctx, key: Key, s: Snapshot, skip: Option<Key>)
    requires c.fates == []
    ensures var r := RemoveClaimProtection(c, key, s, skip);
            r.ok && r.ctx.fates == [] && r.ctx.w == c.w.(claims := r.ctx.w.claims) && ClaimsShrink(c.w, r.ctx.w)
  {}

  /** Of the controllers' own finalizers, those for a content still held and for a group never named are left. */
  lemma StrippedIff(s: Snapshot, bound: bool, group: bool)
    requires OnlyOurs(s.finalizers)
    ensures var fs := StripFinalizers(s, true, bound, group).finalizers;
            && (fs == [] <==> (SnapshotBound in s.finalizers ==> bound) && (SnapshotInGroup in s.finalizers ==> group))
            && (forall f :: f in fs <==> f in s.finalizers && ((f == SnapshotBound && !bound) || (f == SnapshotInGroup && !group)))
  {
    var fs := StripFinalizers(s, true, bound, group).finalizers;
    assert fs != [] ==> fs[0] in fs;
  }

  lemma FinalizersWritten(c: Ctx, key: Key, s: Snapshot, bound: bool, group: bool)
    requires c.fates == [] && key in c.w.snapshots && c.w.snapshots[key] == s && s.deleted
    requires CommonMakes(c.w, RemoveSnapshotFinalizers(key, true, bound, group))
    ensures var r := Call(c, RemoveSnapshotFinalizers(key, true, bound, group));
            && r.ok && r.ctx.fates == [] && r.ctx.w == c.w.(snapshots := r.ctx.w.snapshots, log := r.ctx.w.log)
            && r.ctx.w.snapshots == StoreSnapshot(c.w.snapshots, key, StripFinalizers(s, true, bound, group))
  {}

  lemma FinalizersGo(c: Ctx, key: Key, s: Snapshot, bound: bool, group: bool)
    requires c.fates == [] && key in c.w.snapshots && c.w.snapshots[key] == s && s.deleted && OnlyOurs(s.finalizers)
    requires bound ==> !HoldsContent(c.w, key, s)
    requires group == NamesGroup(s) && GroupGone(c.w, key, s)
    ensures var r := RemoveFinalizers(c, key, s, bound, group);
            var stripped := StripFinalizers(s, true, bound, group);
            && r.ok && r.ctx.w == c.w.(snapshots := r.ctx.w.snapshots, claims := r.ctx.w.claims, log := r.ctx.w.log)
            && ClaimsShrink(c.w, r.ctx.w) && Released(c, r.ctx, key, s)
            && (key in r.ctx.w.snapshots <==> (SnapshotBound in s.finalizers && !bound) || (SnapshotInGroup in s.finalizers && !group))
            && (key in r.ctx.w.snapshots ==> r.ctx.w.snapshots[key] == stripped)
  {
    ClaimRelease(c, key, s, Some(key));
    FinalizersWritten(RemoveClaimProtection(c, key, s, Some(key)).ctx, key, s, bound, group);
    StrippedIff(s, bound, group);
  }

  lemma ContentMarked(c: Ctx, key: Key, n: string)
    requires c.fates == [] && CommonMakes(c.w, SetBeingDeleted(n, key))
    requires c.w.contents[n].deleted ==> c.w.contents[n].finalizers != []
    ensures var mark := MarkBeingDeleted(c, n, key);
            && mark.ok && mark.ctx.fates == [] && mark.ctx.w == c.w.(contents := mark.ctx.w.contents)
            && n in mark.ctx.w.contents && BeingDeleted in mark.ctx.w.contents[n].annotations
            && mark.ctx.w.contents[n].annotations.Keys == c.w.contents[n].annotations.Keys + {BeingDeleted}
            && mark.ctx.w.contents[n].(annotations := c.w.contents[n].annotations) == c.w.contents[n]
  {}

  lemma ContentDeleted(c: Ctx, n: string)
    requires c.fates == [] && n in c.w.contents
    ensures var del := Call(c, DeleteContent(n));
            && del.ok && del.ctx.fates == [] && del.ctx.w == c.w.(contents := del.ctx.w.contents, log := del.ctx.w.log)
            && (n in del.ctx.w.contents <==> c.w.contents[n].finalizers != [])
            && (n in del.ctx.w.contents ==> del.ctx.w.contents[n] == c.w.contents[n].(deleted := true))
  {}

  /** What a pass over its deleted snapshot makes of a content that points back. */
  ghost predicate LetGo(c: Content, w': World, n: string) {
    && (n in w'.contents <==> c.policy == Retain || c.finalizers != [])
    && (n in w'.contents ==>
          && BeingDeleted in w'.contents[n].annotations
          && w'.contents[n].annotations.Keys == c.annotations.Keys + {BeingDeleted}
          && w'.contents[n].(annotations := c.annotations, deleted := c.deleted) == c
          && (if c.policy == Delete then w'.contents[n].deleted else w'.contents[n].deleted == c.deleted))
  }

  lemma ContentReleased(c: Ctx, key: Key, s: Snapshot, n: string)
    requires c.fates == [] && key in c.w.snapshots && c.w.snapshots[key] == s && s.deleted && OnlyOurs(s.finalizers)
    requires n == DeletionContentName(s) && n in c.w.contents && RefersTo(c.w.contents[n], key, s)
    requires c.w.contents[n].deleted ==> c.w.contents[n].finalizers != []
    requires GroupGone(c.w, key, s)
    ensures var r := ReleaseContent(c, key, s, n, NamesGroup(s));
            && r.ok && LetGo(c.w.contents[n], r.ctx.w, n) && r.ctx.w.passes == c.w.passes && r.ctx.w.groups == c.w.groups
            && ClaimsShrink(c.w, r.ctx.w) && Released(c, r.ctx, key, s)
            && (key in r.ctx.w.snapshots <==> (SnapshotBound in s.finalizers && HoldsContent(c.w, key, s))
                                              || (SnapshotInGroup in s.finalizers && !NamesGroup(s)))
            && (key in r.ctx.w.snapshots ==>
                  r.ctx.w.snapshots[key] == StripFinalizers(s, true, !HoldsContent(c.w, key, s), NamesGroup(s)))
  {
    ContentMarked(c, key, n);
    var mark := MarkBeingDeleted(c, n, key).ctx;
    if c.w.contents[n].policy == Delete {
      ContentDeleted(mark, n);
      SameRelease(c, Call(mark, DeleteContent(n)).ctx, key, s);
      FinalizersGo(Call(mark, DeleteContent(n)).ctx, key, s, false, NamesGroup(s));
    } else {
      SameRelease(c, mark, key, s);
      FinalizersGo(mark, key, s, true, NamesGroup(s));
    }
  }

  /**
   The object of a deleted snapshot outlasts a pass in which nothing fails exactly if it has the bound finalizer
   and a Delete-policy content points back at it, or the in-group finalizer and no group named in its status.
   In particular a snapshot whose bound finalizer is not on yet, and any member of a group, goes before its content.
   */
  lemma SnapshotStaysIff(c: Ctx, key: Key, s: Snapshot)
    requires c.fates == [] && key in c.w.snapshots && c.w.snapshots[key] == s && OnlyOurs(s.finalizers)
    requires IsDeletionCandidate(s) && GroupGone(c.w, key, s) && !IsBeingRestored(c.w, key)
    requires var n := DeletionContentName(s);
             n in c.w.contents && c.w.contents[n].deleted ==> c.w.contents[n].finalizers != []
    ensures var r := SyncDeleted(c, key, s);
            var n := DeletionContentName(s);
            && r.ok
            && (key in r.ctx.w.snapshots <==> (SnapshotBound in s.finalizers && HoldsContent(c.w, key, s))
                                              || (SnapshotInGroup in s.finalizers && !NamesGroup(s)))
            && (n in c.w.contents && RefersTo(c.w.contents[n], key, s) ==> LetGo(c.w.contents[n], r.ctx.w, n))
            && Released(c, r.ctx, key, s)
  {
    var n := DeletionContentName(s);
    if n in c.w.contents && RefersTo(c.w.contents[n], key, s) {
      ContentReleased(c, key, s, n);
    } else {
      FinalizersGo(c, key, s, true, NamesGroup(s));
    }
  }

  // ---- The order of a teardown ----

  /**
   Wherever the pass stops: a content is deleted only once it is marked, and the snapshot is touched only once a
   content that points back is marked and, if its policy says so, deleted.
   */
  ghost predicate InOrder(c: Ctx, d: Ctx, key: Key, n: string) {
    && (n in c.w.contents && n in d.w.contents && d.w.contents[n].deleted && !c.w.contents[n].deleted ==>
          BeingDeleted in d.w.contents[n].annotations)
    && (d.w.snapshots != c.w.snapshots && n in c.w.contents && n in d.w.contents ==>
          BeingDeleted in d.w.contents[n].annotations && (c.w.contents[n].policy == Delete ==> d.w.contents[n].deleted))
    && (d.w.snapshots != c.w.snapshots && n in c.w.contents && c.w.contents[n].policy == Retain && !c.w.contents[n].deleted ==>
          n in d.w.contents && !d.w.contents[n].deleted)
  }

  lemma TeardownIsOrdered(c: Ctx, key: Key, s: Snapshot)
    requires key in c.w.snapshots && c.w.snapshots[key] == s && s.deleted
    requires var n := DeletionContentName(s); n in c.w.contents && RefersTo(c.w.contents[n], key, s)
    ensures InOrder(c, SyncDeleted(c, key, s).ctx, key, DeletionContentName(s))
  {
    var n := DeletionContentName(s);
    if GroupGone(c.w, key, s) {
      ReleaseIsOrdered(c, key, s, n);
    }
  }

  lemma ReleaseIsOrdered(c: Ctx, key: Key, s: Snapshot, n: string)
    requires key in c.w.snapshots && c.w.snapshots[key] == s && s.deleted && GroupGone(c.w, key, s)
    requires n == DeletionContentName(s) && n in c.w.contents && RefersTo(c.w.contents[n], key, s)
    ensures InOrder(c, ReleaseContent(c, key, s, n, NamesGroup(s)).ctx, key, n)
  {
    var mark := MarkBeingDeleted(c, n, key);
    MarkKeepsRest(c, n, key);
    if mark.ok && c.w.contents[n].policy == Retain {
      RemovalKeepsContents(mark.ctx, key, s, true, NamesGroup(s));
    } else if mark.ok && n in mark.ctx.w.contents {
      var del := Call(mark.ctx, DeleteContent(n));
      DeletionKeepsRest(mark.ctx, n);
      if del.ok {
        RemovalKeepsContents(del.ctx, key, s, false, NamesGroup(s));
      }
    }
  }

  lemma MarkKeepsRest(c: Ctx, n: string, key: Key)
    requires CommonMakes(c.w, SetBeingDeleted(n, key))
    ensures var r := MarkBeingDeleted(c, n, key);
            && r.ctx.w.snapshots == c.w.snapshots && r.ctx.w.groups == c.w.groups
            && (n in r.ctx.w.contents ==>
                  && r.ctx.w.contents[n].(annotations := c.w.contents[n].annotations) == c.w.contents[n]
                  && (r.ok ==> BeingDeleted in r.ctx.w.contents[n].annotations))
            && (n !in r.ctx.w.contents ==> c.w.contents[n].deleted)
  {}

  lemma DeletionKeepsRest(c: Ctx, n: string)
    requires n in c.w.contents
    ensures var r := Call(c, DeleteContent(n));
            && r.ctx.w.snapshots == c.w.snapshots && r.ctx.w.groups == c.w.groups
            && (n in r.ctx.w.contents ==>
                  && r.ctx.w.contents[n].(deleted := c.w.contents[n].deleted) == c.w.contents[n]
                  && (r.ok ==> r.ctx.w.contents[n].deleted))
  {}

  lemma RemovalKeepsContents(c: Ctx, key: Key, s: Snapshot, bound: bool, group: bool)
    requires key in c.w.snapshots && c.w.snapshots[key] == s && s.deleted && (bound ==> !HoldsContent(c.w, key, s))
    requires group == NamesGroup(s) && GroupGone(c.w, key, s)
    ensures RemoveFinalizers(c, key, s, bound, group).ctx.w.contents == c.w.contents
  {}

  // ---- Members that never go ----

  /** The in-group finalizer can never be taken off: the status names no group, or nothing makes the snapshot a candidate. */
  predicate Orphaned(s: Snapshot) {
    s.deleted && SnapshotInGroup in s.finalizers && (!NamesGroup(s) || !IsDeletionCandidate(s))
  }

  ghost predicate Forgotten(w: World, key: Key) {
    key in w.snapshots && Orphaned(w.snapshots[key])
  }

  /** Taking off what may be taken off leaves the snapshot as orphaned as it was. */
  lemma StrippingKeepsOrphan(s: Snapshot, bound: bool)
    requires Orphaned(s) && !NamesGroup(s)
    ensures Orphaned(StripFinalizers(s, true, bound, false)) && StripFinalizers(s, true, bound, false).finalizers != []
  {
    var fs := StripFinalizers(s, true, bound, false).finalizers;
    assert SnapshotInGroup in fs;
  }

  lemma RemovalKeepsForgotten(c: Ctx, key: Key, s: Snapshot, bound: bool)
    requires key in c.w.snapshots && c.w.snapshots[key] == s && Orphaned(s) && !NamesGroup(s)
    requires bound ==> !HoldsContent(c.w, key, s)
    ensures Forgotten(RemoveFinalizers(c, key, s, bound, false).ctx.w, key)
  {
    StrippingKeepsOrphan(s, bound);
  }

  lemma ReleaseKeepsForgotten(c: Ctx, key: Key, s: Snapshot, n: string)
    requires key in c.w.snapshots && c.w.snapshots[key] == s && Orphaned(s) && !NamesGroup(s)
    requires n == DeletionContentName(s) && n in c.w.contents && RefersTo(c.w.contents[n], key, s)
    ensures Forgotten(ReleaseContent(c, key, s, n, false).ctx.w, key)
  {
    var mark := MarkBeingDeleted(c, n, key);
    assert mark.ctx.w.snapshots == c.w.snapshots;
    if mark.ok && c.w.contents[n].policy == Retain {
      RemovalKeepsForgotten(mark.ctx, key, s, true);
    } else if mark.ok && n in mark.ctx.w.contents {
      var del := Call(mark.ctx, DeleteContent(n));
      assert del.ctx.w.snapshots == c.w.snapshots;
      if del.ok {
        RemovalKeepsForgotten(del.ctx, key, s, false);
      }
    }
  }

  lemma DeletionKeepsForgotten(c: Ctx, key: Key, s: Snapshot)
    requires key in c.w.snapshots && c.w.snapshots[key] == s && Orphaned(s)
    ensures Forgotten(SyncDeleted(c, key, s).ctx.w, key)
  {
    var n := DeletionContentName(s);
    if IsDeletionCandidate(s) {
      if n in c.w.contents && RefersTo(c.w.contents[n], key, s) {
        ReleaseKeepsForgotten(c, key, s, n);
      } else {
        RemovalKeepsForgotten(c, key, s, true);
      }
    }
  }

  lemma ErrorKeepsForgotten(c: Ctx, l: Lookup, key: Key, s: Snapshot, m: Message)
    requires key in c.w.snapshots && c.w.snapshots[key] == s && Orphaned(s)
    ensures Forgotten(UpdateErrorStatus(c, l, key, s, false, m).ctx.w, key)
  {}

  /** Whatever becomes of its calls, a pass over a forgotten member forgets it again. */
  lemma PassKeepsForgotten(c: Ctx, l: Lookup, key: Key)
    requires Forgotten(c.w, key)
    ensures Forgotten(SyncSnapshotByKey(c, l, key).ctx.w, key)
  {
    var s := c.w.snapshots[key];
    ErrorKeepsForgotten(c, l, key, s, ClassMissing);
    var e := UpdateErrorStatus(c, l, key, s, false, ClassMissing).ctx;
    if e.w.snapshots[key] == s {
      DeletionKeepsForgotten(RemoveClaimProtection(e, key, s, None).ctx, key, s);
    }
    DeletionKeepsForgotten(RemoveClaimProtection(c, key, s, None).ctx, key, s);
  }

  /** Whatever becomes of its calls, no deletion pass lets a member go while the group its status names exists. */
  lemma NamedMemberStays(c: Ctx, l: Lookup, key: Key)
    requires key in c.w.snapshots && c.w.snapshots[key].deleted && c.w.snapshots[key].finalizers != []
    requires NamesGroup(c.w.snapshots[key]) && Grouped(c.w, key, c.w.snapshots[key])
    ensures var w' := SyncSnapshotByKey(c, l, key).ctx.w;
            && key in w'.snapshots && w'.snapshots[key].finalizers == c.w.snapshots[key].finalizers
            && NamesGroup(w'.snapshots[key]) && w'.snapshots[key].status.value.groupName == c.w.snapshots[key].status.value.groupName
            && w'.contents == c.w.contents
  {
    var s := c.w.snapshots[key];
    var e := UpdateErrorStatus(c, l, key, s, false, ClassMissing).ctx;
    ErrorKeepsNamed(c, l, key, s, ClassMissing);
    if e.w.snapshots[key] == s {
      NamedDeletionWaits(RemoveClaimProtection(e, key, s, None).ctx, key, s);
    }
    NamedDeletionWaits(RemoveClaimProtection(c, key, s, None).ctx, key, s);
  }

  lemma ErrorKeepsNamed(c: Ctx, l: Lookup, key: Key, s: Snapshot, m: Message)
    requires key in c.w.snapshots && c.w.snapshots[key] == s && s.finalizers != [] && NamesGroup(s)
    ensures var w' := UpdateErrorStatus(c, l, key, s, false, m).ctx.w;
            && key in w'.snapshots && w'.snapshots[key].(status := s.status) == s
            && NamesGroup(w'.snapshots[key]) && w'.snapshots[key].status.value.groupName == s.status.value.groupName
            && w'.contents == c.w.contents && w'.groups == c.w.groups
  {
    var step := WriteSnapshotStatus(key, WithError(s.status, l.now, false, m));
    var w' := UpdateErrorStatus(c, l, key, s, false, m).ctx.w;
    assert w' == c.w || w' == ApplyCommon(c.w, step);
    StatusWriteKeepsRest(c.w, key, WithError(s.status, l.now, false, m));
  }

  lemma StatusWriteKeepsRest(w: World, key: Key, st: SnapshotStatus)
    requires CommonMakes(w, WriteSnapshotStatus(key, st)) && w.snapshots[key].finalizers != []
    ensures var w' := ApplyCommon(w, WriteSnapshotStatus(key, st));
            w' == w.(snapshots := w.snapshots[key := w.snapshots[key].(status := Some(st))], log := w'.log)
  {}

  lemma NamedDeletionWaits(c: Ctx, key: Key, s: Snapshot)
    requires key in c.w.snapshots && c.w.snapshots[key] == s && s.deleted && NamesGroup(s) && Grouped(c.w, key, s)
    ensures SyncDeleted(c, key, s).ctx == c
  {}

  predicate Protected(w: World, key: Key) {
    key in w.snapshots && SnapshotInGroup in w.snapshots[key].finalizers
  }

  /** The status names no group, or one that exists. */
  predicate Grouped(w: World, key: Key, s: Snapshot) {
    NamesGroup(s) ==> Key(key.namespace, s.status.value.groupName.value) in w.groups
  }

  lemma GroupedMemberStays(ws: seq<World>, steps: seq<Cluster.Step>, i: nat, key: Key)
    requires IsRun(ws, steps) && i < |steps| && Protected(ws[i], key) && Grouped(ws[i], key, ws[i].snapshots[key])
    ensures Protected(ws[i + 1], key)
  {
    if !Protected(ws[i + 1], key) {
      MembersStayWithTheirGroup(ws, steps, i, key);
    }
  }

  /** In every run the in-group finalizer stays as long as the status names no group, or the group it names exists. */
  lemma GroupedMembersStay(ws: seq<World>, steps: seq<Cluster.Step>, i: nat, j: nat, key: Key)
    requires IsRun(ws, steps) && i <= j < |ws| && Protected(ws[i], key)
    requires forall k | i <= k < j :: key in ws[k].snapshots ==> Grouped(ws[k], key, ws[k].snapshots[key])
    ensures Protected(ws[j], key)
  {
    var k := i;
    while k < j
      invariant i <= k <= j && Protected(ws[k], key)
    {
      GroupedMemberStays(ws, steps, k, key);
      k := k + 1;
    }
  }
}
