/**
 Pre-provisioned contents: one pass binds a snapshot to the content it names, or refuses it
 and touches no content; members of groups follow the content they are bound to; and the one
 way a bound content can lose its snapshot unasked.
 */
module Binding {
  import opened Objects
  import opened Sidecar
  import opened Cluster
  import opened Mirror
  import opened Common
  import opened Departing

  /** A snapshot that asks for a content by name and is not ready yet. */
  predicate Asks(s: Snapshot, l: Lookup) {
    && !s.deleted && s.claimName.None? && s.contentName.Some? && !IsSnapshotReady(s)
    && (s.className.Some? ==> s.className.value in l.classes)
  }

  lemma TurnAfterFinalizers(w: World, l: Lookup, key: Key)
    requires key in w.snapshots && Asks(w.snapshots[key], l)
    ensures var f := AddFinalizers(Start(w, []), l, key, w.snapshots[key]);
            SyncSnapshotByKey(Start(w, []), l, key) == if f.ok then SyncPreprovisioned(f.ctx, l, key, w.snapshots[key]) else f
  {}

  lemma FinalizersLeaveContents(c: Ctx, l: Lookup, key: Key, n: string)
    requires c.fates == [] && key in c.w.snapshots && Asks(c.w.snapshots[key], l)
    requires FindPreprovisioned(c.w, key, c.w.snapshots[key]) == Found(n)
    ensures var s := c.w.snapshots[key];
            var f := AddFinalizers(c, l, key, s);
            f.ok && f.ctx.fates == [] && f.ctx.w.contents == c.w.contents && Current(f.ctx.w, key, s)
            && FindPreprovisioned(f.ctx.w, key, s) == Found(n)
  {}

  /** The content points back at the snapshot, and the snapshot's status is the one mirrored from it. */
  ghost predicate BoundBoth(contents: map<string, Content>, s: Snapshot, w': World, key: Key, n: string)
    requires n in contents
  {
    && n in w'.contents && key in w'.snapshots && RefersTo(w'.contents[n], key, s)
    && w'.contents == contents[n := contents[n].(refUid := s.uid, className := w'.contents[n].className)]
    && w'.contents[n].className == (if contents[n].refUid != "" && contents[n].className.Some? then contents[n].className
                                    else if s.className.Some? then s.className else contents[n].className)
    && w'.snapshots[key].status == Some(MirrorStatus(s.status, n, contents[n].status, "").status)
  }

  /** The status is mirrored, written or already there. */
  lemma StatusTurn(c: Ctx, l: Lookup, key: Key, n: string, st: Option<ContentStatus>)
    requires c.fates == [] && key in c.w.snapshots && !c.w.snapshots[key].deleted && (st.Some? ==> st.value.groupHandle.None?)
    ensures var r := UpdateStatus(c, l, key, n, st);
            && r.ok && r.ctx.w == c.w.(snapshots := r.ctx.w.snapshots, log := r.ctx.w.log) && key in r.ctx.w.snapshots
            && r.ctx.w.snapshots[key].status == Some(MirrorStatus(c.w.snapshots[key].status, n, st, "").status)
  {
    NothingToWriteIsWritten(c.w.snapshots[key].status, n, st);
  }

  lemma BoundAlready(c: Ctx, l: Lookup, key: Key, s: Snapshot, n: string)
    requires c.fates == [] && Current(c.w, key, s) && Asks(s, l) && FindPreprovisioned(c.w, key, s) == Found(n)
    requires GroupHandleOf(c.w.contents[n]).None? && c.w.contents[n].refUid != "" && c.w.contents[n].className.Some?
    ensures SyncPreprovisioned(c, l, key, s).ok && BoundBoth(c.w.contents, s, SyncPreprovisioned(c, l, key, s).ctx.w, key, n)
  {
    StatusTurn(c, l, key, n, c.w.contents[n].status);
    assert c.w.contents == c.w.contents[n := c.w.contents[n].(refUid := s.uid, className := c.w.contents[n].className)];
  }

  lemma BindingTurn(c: Ctx, l: Lookup, key: Key, s: Snapshot, n: string)
    requires c.fates == [] && Current(c.w, key, s) && Asks(s, l) && FindPreprovisioned(c.w, key, s) == Found(n)
    requires GroupHandleOf(c.w.contents[n]).None? && (c.w.contents[n].deleted ==> c.w.contents[n].finalizers != [])
    ensures SyncPreprovisioned(c, l, key, s).ok && BoundBoth(c.w.contents, s, SyncPreprovisioned(c, l, key, s).ctx.w, key, n)
  {
    var content := c.w.contents[n];
    if content.refUid != "" && content.className.Some? {
      BoundAlready(c, l, key, s, n);
    } else {
      BoundNow(c, l, key, s, n);
    }
  }

  lemma BoundNow(c: Ctx, l: Lookup, key: Key, s: Snapshot, n: string)
    requires c.fates == [] && Current(c.w, key, s) && Asks(s, l) && FindPreprovisioned(c.w, key, s) == Found(n)
    requires GroupHandleOf(c.w.contents[n]).None? && (c.w.contents[n].deleted ==> c.w.contents[n].finalizers != [])
    requires c.w.contents[n].refUid == "" || c.w.contents[n].className.None?
    ensures SyncPreprovisioned(c, l, key, s).ok && BoundBoth(c.w.contents, s, SyncPreprovisioned(c, l, key, s).ctx.w, key, n)
  {
    BindTurn(c, key, s, n);
    var b := Call(c, BindContent(n, key, s.className));
    StatusTurn(b.ctx, l, key, n, c.w.contents[n].status);
    BindingComesFirst(c, l, key, s, n);
    BoundShape(c.w.contents, s, b.ctx.w, UpdateStatus(b.ctx, l, key, n, c.w.contents[n].status).ctx.w, key, n);
  }

  lemma BoundShape(contents: map<string, Content>, s: Snapshot, w: World, w': World, key: Key, n: string)
    requires n in contents && contents[n].refKey == key && Current(w, key, s) && w' == w.(snapshots := w'.snapshots, log := w'.log)
    requires contents[n].refUid == "" || contents[n].className.None?
    requires w.contents == contents[n := contents[n].(
                              refUid := s.uid, className := if s.className.Some? then s.className else contents[n].className)]
    requires key in w'.snapshots
             && w'.snapshots[key].status == Some(MirrorStatus(w.snapshots[key].status, n, contents[n].status, "").status)
    ensures BoundBoth(contents, s, w', key, n)
  {}

  lemma BindingComesFirst(c: Ctx, l: Lookup, key: Key, s: Snapshot, n: string)
    requires Current(c.w, key, s) && Asks(s, l) && FindPreprovisioned(c.w, key, s) == Found(n)
    requires c.w.contents[n].refUid == "" || c.w.contents[n].className.None?
    requires Call(c, BindContent(n, key, s.className)).ok
    requires UpdateStatus(Call(c, BindContent(n, key, s.className)).ctx, l, key, n, c.w.contents[n].status).ok
    ensures SyncPreprovisioned(c, l, key, s)
            == UpdateStatus(Call(c, BindContent(n, key, s.className)).ctx, l, key, n, c.w.contents[n].status)
  {}

  lemma BindTurn(c: Ctx, key: Key, s: Snapshot, n: string)
    requires c.fates == [] && Current(c.w, key, s) && CommonEnabled(c.w, BindContent(n, key, s.className))
    requires c.w.contents[n].deleted ==> c.w.contents[n].finalizers != []
    ensures var b := Call(c, BindContent(n, key, s.className));
            && b.ok && b.ctx.fates == [] && b.ctx.w == c.w.(contents := b.ctx.w.contents, log := b.ctx.w.log)
            && b.ctx.w.contents == c.w.contents[n := c.w.contents[n].(
                                     refUid := s.uid, className := if s.className.Some? then s.className else c.w.contents[n].className)]
  {}

  lemma NothingToWriteIsWritten(prior: Option<SnapshotStatus>, n: string, st: Option<ContentStatus>)
    ensures !MirrorStatus(prior, n, st, "").updated ==> prior == Some(MirrorStatus(prior, n, st, "").status)
  {
    if !MirrorStatus(prior, n, st, "").updated {
      NothingToWrite(prior, n, st, "");
    }
  }

  lemma TurnIsSyncPreprovisioned(w: World, l: Lookup, key: Key, n: string) returns (c: Ctx)
    requires key in w.snapshots && Asks(w.snapshots[key], l) && FindPreprovisioned(w, key, w.snapshots[key]) == Found(n)
    ensures c.fates == [] && Current(c.w, key, w.snapshots[key]) && c.w.contents == w.contents
    ensures FindPreprovisioned(c.w, key, w.snapshots[key]) == Found(n)
    ensures SyncSnapshotByKey(Start(w, []), l, key) == SyncPreprovisioned(c, l, key, w.snapshots[key])
  {
    TurnAfterFinalizers(w, l, key);
    FinalizersLeaveContents(Start(w, []), l, key, n);
    c := AddFinalizers(Start(w, []), l, key, w.snapshots[key]).ctx;
  }

  /** One pass without faults binds the two both ways. */
  lemma OnePassBinds(w: World, l: Lookup, key: Key, n: string)
    requires key in w.snapshots && Asks(w.snapshots[key], l) && FindPreprovisioned(w, key, w.snapshots[key]) == Found(n)
    requires GroupHandleOf(w.contents[n]).None? && (w.contents[n].deleted ==> w.contents[n].finalizers != [])
    ensures SyncSnapshotByKey(Start(w, []), l, key).ok
    ensures BoundBoth(w.contents, w.snapshots[key], SyncSnapshotByKey(Start(w, []), l, key).ctx.w, key, n)
  {
    var c := TurnIsSyncPreprovisioned(w, l, key, n);
    BindingTurn(c, l, key, w.snapshots[key], n);
  }

  /** A content made for another snapshot, or provisioned from a volume, is left alone, and the pass fails. */
  lemma StrangersAreRefused(w: World, l: Lookup, key: Key, fates: seq<Fate>)
    requires key in w.snapshots && Asks(w.snapshots[key], l) && FindPreprovisioned(w, key, w.snapshots[key]).Unfit?
    ensures var r := SyncSnapshotByKey(Start(w, fates), l, key);
            !r.ok && r.ctx.w.contents == w.contents && r.ctx.w.claims == w.claims
  {}

  // ---- A status that lags behind ----

  /** Mirroring the content would change the status. */
  predicate Lags(s: Snapshot, c: Content, n: string, group: string) {
    s.status != Some(MirrorStatus(s.status, n, c.status, group).status)
  }

  /**
   A pass over a content asks for no pass over its snapshot exactly if the content has no status, or has no
   readiness recorded and mirroring would change at most readiness, error and group name.
   */
  lemma NoUpdateAskedIff(s: Snapshot, c: Content, n: string, group: string)
    ensures !NeedsStatusUpdate(s, c)
            <==> c.status.None?
                 || (c.status.value.ready.None? && s.status.Some?
                     && var m := MirrorStatus(s.status, n, c.status, group).status;
                        m == s.status.value.(ready := Some(false), error := m.error, groupName := m.groupName))
  {}

  /** So every lag is noticed, whatever the snapshot's status, exactly if the content's readiness is recorded. */
  lemma EveryLagIsNoticedIff(s: Snapshot, c: Content, n: string, group: string)
    ensures (forall st: Option<SnapshotStatus> :: Lags(s.(status := st), c, n, group) ==> NeedsStatusUpdate(s.(status := st), c))
            <==> c.status.Some? && c.status.value.ready.Some?
  {
    if c.status.None? {
      NewContentIsOverlooked(s.(status := None), c, n, group);
    } else if c.status.value.ready.None? {
      var m := MirrorStatus(None, n, c.status, group).status.(ready := Some(true));
      assert Lags(s.(status := Some(m)), c, n, group) && !NeedsStatusUpdate(s.(status := Some(m)), c);
    }
  }

  /** A content just made has no status: the name it is to be bound under is overlooked. */
  lemma NewContentIsOverlooked(s: Snapshot, c: Content, n: string, group: string)
    requires s.status.None? && c.status.None?
    ensures Lags(s, c, n, group) && !NeedsStatusUpdate(s, c)
    ensures MirrorStatus(s.status, n, c.status, group).status.bound == Some(n)
  {}

  /** The sidecar clears the status of a content it deleted the snapshot of: that it is not ready any more is overlooked. */
  lemma ClearedContentIsOverlooked(s: Snapshot, c: Content, n: string, group: string)
    requires c.status.Some? && s.status.Some? && s.status.value.bound.Some? && IsSnapshotReady(s)
    ensures Lags(s, WithClearedStatus(c), n, group) && !NeedsStatusUpdate(s, WithClearedStatus(c))
    ensures MirrorStatus(s.status, n, WithClearedStatus(c).status, group).status.ready == Some(false)
  {}

  // ---- Members of groups ----

  /** The stored status is the one mirrored from the content `n`. */
  ghost predicate Mirrors(w: World, w': World, l: Lookup, key: Key, n: string) {
    && n in w.contents && key in w.snapshots && key in w'.snapshots && GroupNameFor(l, w.contents[n].status).Some?
    && w'.snapshots[key].status
       == Some(MirrorStatus(w.snapshots[key].status, n, w.contents[n].status, GroupNameFor(l, w.contents[n].status).value).status)
  }

  lemma StatusMirrored(c: Ctx, l: Lookup, key: Key, n: string)
    requires n in c.w.contents && key in c.w.snapshots && (c.w.snapshots[key].deleted ==> c.w.snapshots[key].finalizers != [])
    ensures var r := UpdateStatus(c, l, key, n, c.w.contents[n].status);
            && (r.ok ==> Mirrors(c.w, r.ctx.w, l, key, n))
            && (c.fates == [] && GroupNameFor(l, c.w.contents[n].status).Some? ==> r.ok)
  {
    var st := c.w.contents[n].status;
    if GroupNameFor(l, st).Some? && !MirrorStatus(c.w.snapshots[key].status, n, st, GroupNameFor(l, st).value).updated {
      NothingToWrite(c.w.snapshots[key].status, n, st, GroupNameFor(l, st).value);
    }
  }

  /**
   A member's pass succeeds only if its status is then the mirrored one of the content it is bound to; so it is
   ready exactly if that content is. Unbound, or bound to a content that is not there, it waits: nothing is
   written. When no call fails nothing else stands in its way but a group content nobody knows.
   */
  lemma MembersAreMirrored(c: Ctx, l: Lookup, key: Key, s: Snapshot)
    requires Current(c.w, key, s) && (s.deleted ==> c.w.snapshots[key].finalizers != [])
    ensures var r := SyncMember(c, l, key, s);
            var bound := if s.status.Some? then s.status.value.bound else None;
            && r.ctx.w == c.w.(snapshots := r.ctx.w.snapshots, log := r.ctx.w.log)
            && (r.ok ==> bound.Some? && Mirrors(c.w, r.ctx.w, l, key, bound.value)
                         && (IsSnapshotReady(r.ctx.w.snapshots[key]) <==> IsReady(c.w.contents[bound.value])))
            && (bound.None? || bound.value !in c.w.contents ==> !r.ok && r.ctx == c)
            && (c.fates == [] && bound.Some? && bound.value in c.w.contents ==>
                  (r.ok <==> GroupNameFor(l, c.w.contents[bound.value].status).Some?))
  {
    if s.status.Some? && s.status.value.bound.Some? && s.status.value.bound.value in c.w.contents {
      var n := s.status.value.bound.value;
      StatusMirrored(c, l, key, n);
      var st := c.w.contents[n].status;
      if GroupNameFor(l, st).Some? {
        MirrorFollowsAndKeeps(c.w.snapshots[key].status, n, st, GroupNameFor(l, st).value);
      }
    }
  }

  /**
   Once a member's pass succeeded its status names the group of the group content with the handle its content
   carries, unless it named one before; and no deletion pass lets it go while that group exists.
   */
  lemma MirroredMembersAreNamed(c: Ctx, l: Lookup, key: Key, s: Snapshot)
    requires Current(c.w, key, s) && !s.deleted && SyncMember(c, l, key, s).ok
    ensures var s' := SyncMember(c, l, key, s).ctx.w.snapshots[key];
            var st := c.w.contents[s.status.value.bound.value].status;
            && (NamesGroup(s) ==> NamesGroup(s') && s'.status.value.groupName == s.status.value.groupName)
            && (!NamesGroup(s) && st.Some? && st.value.groupHandle.Some? ==>
                  && st.value.groupHandle.value in l.groupOf
                  && (l.groupOf[st.value.groupHandle.value] != "" ==>
                        NamesGroup(s') && s'.status.value.groupName.value == l.groupOf[st.value.groupHandle.value]))
            && (!NamesGroup(s) && (st.Some? ==> st.value.groupHandle.None?) ==> !NamesGroup(s'))
  {
    MembersAreMirrored(c, l, key, s);
    var n := s.status.value.bound.value;
    var st := c.w.contents[n].status;
    MirrorFillsIn(c.w.snapshots[key].status, n, st, GroupNameFor(l, st).value);
    MirrorFollowsAndKeeps(c.w.snapshots[key].status, n, st, GroupNameFor(l, st).value);
  }

  /** The snapshot as the pass found it is deleted later; the group it was mirrored to be in still exists. */
  lemma MirroredMembersStay(c: Ctx, l: Lookup, key: Key, s: Snapshot, later: Ctx)
    requires Current(c.w, key, s) && !s.deleted && !NamesGroup(s) && SyncMember(c, l, key, s).ok
    requires var st := c.w.contents[s.status.value.bound.value].status;
             && st.Some? && st.value.groupHandle.Some? && l.groupOf[st.value.groupHandle.value] != ""
             && Key(key.namespace, l.groupOf[st.value.groupHandle.value]) in later.w.groups
    requires key in later.w.snapshots && SnapshotInGroup in later.w.snapshots[key].finalizers && later.w.snapshots[key].deleted
    requires later.w.snapshots[key].status == SyncMember(c, l, key, s).ctx.w.snapshots[key].status
    ensures var w' := SyncSnapshotByKey(later, l, key).ctx.w;
            key in w'.snapshots && w'.snapshots[key].finalizers == later.w.snapshots[key].finalizers && w'.contents == later.w.contents
  {
    MirroredMembersAreNamed(c, l, key, s);
    NamedMemberStays(later, l, key);
  }

  // ---- An unbound content bound too late ----

  function FirstSteps(n: string, c: Content): seq<Cluster.Step> {
    [User(CreateContentObject(n, c)), BeginPass(n, Inputs(true, true, true, true)), AdvancePass(n, StatusRead(true, 1, 1, "")),
     AdvancePass(n, ApiOk(0))]
  }

  function LastSteps(n: string, key: Key, s: Snapshot): seq<Cluster.Step> {
    [User(DeleteContentObject(n)), BeginPass(n, Inputs(true, true, true, true)),
     User(CreateSnapshotObject(key, s)), Cluster.Common(BindContent(n, key, None)), AdvancePass(n, SnapshotDeleted)]
  }

  /** An unbound Delete-policy content for a snapshot that exists, kept by somebody else's finalizer. */
  predicate Unclaimed(c: Content) {
    && c.refUid == "" && c.snapshotHandle.Some? && c.volumeHandle.None? && c.policy == Delete && !c.deleted
    && |c.finalizers| == 1 && c.finalizers[0].OtherFinalizer? && c.annotations == map[] && c.className.None?
  }

  lemma AskedRun(w: World, n: string, c: Content) returns (ws: seq<World>)
    requires Initial(w) && Unclaimed(c) && c.status.None? && c.snapshotHandle.value !in w.physical
    ensures |ws| == 3 && ws[0] == w
    ensures forall i | 0 <= i < 2 :: Enabled(ws[i], FirstSteps(n, c)[i]) && ws[i + 1] == Apply(ws[i], FirstSteps(n, c)[i])
    ensures ws[2].contents == map[n := c] && ws[2].passes == map[n := AtGetStatus(c)] && ws[2].snapshots == map[]
    ensures ws[2].log.condemned == {} && ws[2].log.keyOf == map[]
  {
    var steps := FirstSteps(n, c);
    assert Enabled(w, steps[0]);
    var w1 := Apply(w, steps[0]);
    assert w1.contents == map[n := c];
    ws := [w, w1, Apply(w1, steps[1])];
  }

  lemma AnsweredRun(w: World, n: string, c: Content) returns (ws: seq<World>, d: Content)
    requires w.contents == map[n := c] && w.passes == map[n := AtGetStatus(c)] && w.snapshots == map[]
    requires Unclaimed(c) && c.status.None? && w.log.condemned == {} && w.log.keyOf == map[]
    ensures |ws| == 3 && ws[0] == w
    ensures forall i | 0 <= i < 2 :: Enabled(ws[i], FirstSteps(n, c)[i + 2]) && ws[i + 1] == Apply(ws[i], FirstSteps(n, c)[i + 2])
    ensures Unclaimed(d) && d.refKey == c.refKey && Handle(d).Some? && GroupHandleOf(d).None?
    ensures ws[2].contents == map[n := d] && ws[2].passes == map[] && ws[2].snapshots == map[]
    ensures ws[2].log.condemned == {} && ws[2].log.keyOf == map[]
  {
    var steps := FirstSteps(n, c);
    var w1 := Apply(w, steps[2]);
    assert w1.passes == map[n := AtRecord(c, false, c.snapshotHandle.value, true, 1, 1, "")] && w1.contents == w.contents;
    var w2 := Apply(w1, steps[3]);
    d := c.(status := Some(MergeStatus(None, c.snapshotHandle.value, true, 1, 1, "")));
    assert w2.contents == map[n := d] && w2.passes == map[];
    ws := [w, w1, w2];
  }

  /** Its handle is recorded by an ordinary pass. */
  lemma RecordedRun(w: World, n: string, c: Content) returns (ws: seq<World>, d: Content)
    requires Initial(w) && Unclaimed(c) && c.status.None? && c.snapshotHandle.value !in w.physical
    ensures |ws| == 5 && ws[0] == w
    ensures forall i | 0 <= i < 4 :: Enabled(ws[i], FirstSteps(n, c)[i]) && ws[i + 1] == Apply(ws[i], FirstSteps(n, c)[i])
    ensures Unclaimed(d) && d.refKey == c.refKey && Handle(d).Some? && GroupHandleOf(d).None?
    ensures ws[4].contents == map[n := d] && ws[4].passes == map[] && ws[4].snapshots == map[]
    ensures ws[4].log.condemned == {} && ws[4].log.keyOf == map[]
  {
    var first := AskedRun(w, n, c);
    var last, e := AnsweredRun(first[2], n, c);
    ws, d := first + last[1..], e;
    forall i | 0 <= i < 4 ensures Enabled(ws[i], FirstSteps(n, c)[i]) && ws[i + 1] == Apply(ws[i], FirstSteps(n, c)[i]) {
      if i >= 2 {
        assert ws[i] == last[i - 2] && ws[i + 1] == last[i - 1];
      }
    }
  }

  predicate NewSnapshot(s: Snapshot) {
    s.uid != "" && !s.deleted && s.status.None? && s.parent.None? && s.finalizers == []
  }

  /** Its administrator deletes it, and a pass decides to delete the snapshot. */
  lemma DecidedRun(w: World, n: string, d: Content, s: Snapshot) returns (ws: seq<World>)
    requires w.contents == map[n := d] && w.passes == map[] && w.snapshots == map[] && w.log.condemned == {}
             && w.log.keyOf == map[]
    requires Unclaimed(d) && Handle(d).Some? && GroupHandleOf(d).None?
    ensures |ws| == 3 && ws[0] == w
    ensures forall i | 0 <= i < 2 :: Enabled(ws[i], LastSteps(n, d.refKey, s)[i]) && ws[i + 1] == Apply(ws[i], LastSteps(n, d.refKey, s)[i])
    ensures ws[2].contents == map[n := d.(deleted := true)]
            && ws[2].passes == map[n := AtDeleteSnapshot(d.(deleted := true))]
    ensures ws[2].snapshots == map[] && ws[2].log.condemned == {} && ws[2].log.keyOf == map[]
  {
    var steps := LastSteps(n, d.refKey, s);
    var w1 := Apply(w, steps[0]);
    assert w1.contents == map[n := d.(deleted := true)];
    ws := [w, w1, Apply(w1, steps[1])];
  }

  /** Only then is the content bound. */
  lemma BoundLateRun(w: World, n: string, d: Content, s: Snapshot) returns (ws: seq<World>)
    requires w.contents == map[n := d.(deleted := true)] && w.passes == map[n := AtDeleteSnapshot(d.(deleted := true))]
    requires w.snapshots == map[] && w.log.condemned == {} && w.log.keyOf == map[] && Unclaimed(d) && NewSnapshot(s)
    ensures |ws| == 3 && ws[0] == w
    ensures forall i | 0 <= i < 2 :: Enabled(ws[i], LastSteps(n, d.refKey, s)[i + 2]) && ws[i + 1] == Apply(ws[i], LastSteps(n, d.refKey, s)[i + 2])
    ensures ws[2].passes == w.passes && n in ws[2].contents && ws[2].contents[n].refUid == s.uid && ws[2].log.condemned == {}
  {
    var steps := LastSteps(n, d.refKey, s);
    var w1 := Apply(w, steps[2]);
    ws := [w, w1, Apply(w1, steps[3])];
  }

  /** And the call goes out. */
  lemma OvertakenRun(w: World, n: string, d: Content, s: Snapshot) returns (ws: seq<World>)
    requires w.contents == map[n := d.(deleted := true)] && w.passes == map[n := AtDeleteSnapshot(d.(deleted := true))]
    requires w.snapshots == map[] && w.log.condemned == {} && w.log.keyOf == map[] && Unclaimed(d) && NewSnapshot(s)
    ensures |ws| == 4 && ws[0] == w
    ensures forall i | 0 <= i < 3 :: Enabled(ws[i], LastSteps(n, d.refKey, s)[i + 2]) && ws[i + 1] == Apply(ws[i], LastSteps(n, d.refKey, s)[i + 2])
    ensures SendsDelete(ws[2], LastSteps(n, d.refKey, s)[4], n)
    ensures n in ws[2].contents && ws[2].contents[n].refUid == s.uid && s.uid !in ws[3].log.condemned
  {
    var first := BoundLateRun(w, n, d, s);
    ws := first + [Apply(first[2], LastSteps(n, d.refKey, s)[4])];
  }

  lemma RacingRun(w: World, n: string, d: Content, s: Snapshot) returns (ws: seq<World>)
    requires w.contents == map[n := d] && w.passes == map[] && w.snapshots == map[] && w.log.condemned == {}
             && w.log.keyOf == map[]
    requires Unclaimed(d) && Handle(d).Some? && GroupHandleOf(d).None? && NewSnapshot(s)
    ensures |ws| == 6 && ws[0] == w
    ensures forall i | 0 <= i < 5 :: Enabled(ws[i], LastSteps(n, d.refKey, s)[i]) && ws[i + 1] == Apply(ws[i], LastSteps(n, d.refKey, s)[i])
    ensures SendsDelete(ws[4], LastSteps(n, d.refKey, s)[4], n)
    ensures n in ws[4].contents && ws[4].contents[n].refUid == s.uid && s.uid !in ws[5].log.condemned
  {
    var first := DecidedRun(w, n, d, s);
    var last := OvertakenRun(first[2], n, d, s);
    ws := first + last[1..];
    forall i | 0 <= i < 5 ensures Enabled(ws[i], LastSteps(n, d.refKey, s)[i]) && ws[i + 1] == Apply(ws[i], LastSteps(n, d.refKey, s)[i]) {
      if i >= 2 {
        assert ws[i] == last[i - 2] && ws[i + 1] == last[i - 1];
      }
    }
  }

  /**
   The deletion of an unbound content asks nobody: there is a run in which, between the sidecar's decision
   and its call, the content is bound to a snapshot nobody deleted, and the call is sent all the same.
   */
  lemma UnboundDeletionCanOvertakeBinding(w: World, n: string, c: Content, s: Snapshot)
    requires Initial(w) && Unclaimed(c) && c.status.None? && c.snapshotHandle.value !in w.physical && NewSnapshot(s)
    ensures exists ws: seq<World>, steps: seq<Cluster.Step> ::
              && IsRun(ws, steps) && ws[0] == w && |steps| == 9 && SendsDelete(ws[8], steps[8], n)
              && n in ws[8].contents && ws[8].contents[n].refUid == s.uid && s.uid !in ws[9].log.condemned
  {
    var first, d := RecordedRun(w, n, c);
    var last := RacingRun(first[4], n, d, s);
    var ws, steps := first + last[1..], FirstSteps(n, c) + LastSteps(n, d.refKey, s);
    forall i | 0 <= i < |steps| ensures Enabled(ws[i], steps[i]) && ws[i + 1] == Apply(ws[i], steps[i]) {
      if i >= 4 {
        assert ws[i] == last[i - 4] && ws[i + 1] == last[i - 3] && steps[i] == LastSteps(n, d.refKey, s)[i - 4];
      }
    }
    assert IsRun(ws, steps) && ws[8] == last[4] && ws[9] == last[5];
  }
}
