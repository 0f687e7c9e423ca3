/**
 No physical snapshot is ever lost sight of: whatever the driver holds, or may still
 produce, for a dynamic content is announced on that content by the being-created
 annotation or by the recorded handle.
 */
module Tracking {
  import opened Objects
  import opened Sidecar
  import opened Cluster
  import opened Invariants

  // ---- The claim ----

  /** The content provisioned for `uid` exists and announces its snapshot. */
  ghost predicate Claimed(w: World, uid: string) {
    var n := DynamicContentName(uid);
    n in w.contents && IsDynamic(w.contents[n]) && w.contents[n].refUid == uid
    && (BeingCreated in w.contents[n].annotations || Handle(w.contents[n]).Some?)
  }

  /** Every snapshot made, or in the making, was asked for by a provisioned content and is claimed or released by it. */
  ghost predicate NoLeak(w: World) {
    && NamesAreProvisioned(w)
    && (forall uid :: uid in w.log.provisioned && Present(w, uid) ==> uid in w.log.released || Claimed(w, uid))
  }

  ghost predicate NamesAreProvisioned(w: World) {
    && (forall h :: h in w.physical && w.physical[h].Some? ==> IsProvisionedName(w, w.physical[h].value))
    && (forall name :: name in w.pending ==> IsProvisionedName(w, name))
  }

  ghost predicate IsProvisionedName(w: World, name: string) {
    exists uid :: uid in w.log.provisioned && name == SnapshotName(w.prefix, uid)
  }

  // ---- The invariant behind it ----

  ghost predicate OnlyHolder(w: World, uid: string, h: string) {
    forall g :: Holder(w, g, SnapshotName(w.prefix, uid)) ==> g == h
  }

  /** A handle recorded for `uid` names its snapshot, or one that is gone for good. */
  ghost predicate HandleIsOurs(w: World, uid: string, h: string) {
    && OnlyHolder(w, uid, h)
    && (h in w.physical ==> w.physical[h] == Some(SnapshotName(w.prefix, uid)))
    && (h in w.physical || h in w.log.offLimits)
  }

  ghost predicate Settled(w: World, uid: string) {
    SnapshotName(w.prefix, uid) !in w.pending
  }

  ghost predicate DynamicTrack(w: World, c: Content) {
    var uid := c.refUid;
    && (Present(w, uid) && uid !in w.log.released ==> BeingCreated in c.annotations || Handle(c).Some?)
    && (BeingCreated !in c.annotations && Handle(c).Some? ==> Settled(w, uid))
    && (Handle(c).Some? ==>
          HandleIsOurs(w, uid, Handle(c).value)
          && (uid !in w.log.destroyed ==> Holder(w, Handle(c).value, SnapshotName(w.prefix, uid))))
    && (IsReady(c) ==> Handle(c).Some? && Settled(w, uid))
    && GroupHandleOf(c).None?
    && (uid in w.log.destroyed ==> ShouldDelete(c) && Settled(w, uid))
  }

  /** A pre-provisioned content only ever knows handles the driver does not hand out. */
  ghost predicate ImportedTrack(w: World, c: Content) {
    c.snapshotHandle.Some? ==>
      c.snapshotHandle.value in w.log.offLimits && (Handle(c).Some? ==> Handle(c).value in w.log.offLimits)
  }

  ghost predicate Track(w: World, c: Content) {
    ImportedTrack(w, c) && (IsDynamic(c) ==> DynamicTrack(w, c))
  }

  ghost predicate DynamicPass(w: World, n: string, pc: Pc)
    requires !pc.Done?
  {
    var c := pc.copy;
    var uid := c.refUid;
    GroupHandleOf(c).None?
    && match pc
       case AtSetBeingCreated(_, _) =>
         uid !in w.log.destroyed && !IsReady(c)
         && (n in w.contents ==> c.status == w.contents[n].status && BeingCreated !in w.contents[n].annotations)
       case AtCreateSnapshot(_) =>
         (n in w.contents || uid in w.log.released) && uid !in w.log.destroyed && !IsReady(c)
         && BeingCreated in c.annotations
         && (n in w.contents ==> c.status == w.contents[n].status && BeingCreated in w.contents[n].annotations)
       case AtRecord(_, byCreate, h, _, _, _, groupId) =>
         byCreate && groupId == "" && uid !in w.log.destroyed && Settled(w, uid) && BeingCreated in c.annotations
         && Holder(w, h, SnapshotName(w.prefix, uid)) && HandleIsOurs(w, uid, h)
         && (n in w.contents ==> c.status == w.contents[n].status && BeingCreated in w.contents[n].annotations)
       case AtRemoveBeingCreated(_, why) =>
         uid !in w.log.destroyed
         && (match why
             case AfterCreate => Handle(c).Some? && Settled(w, uid)
             case AfterFinalError(_) => !Present(w, uid)
             case AlreadyReady => IsReady(c))
         && (n in w.contents ==> c.status == w.contents[n].status)
       case AtGetStatus(_) => false
       case AtErrorStatus(_, _) =>
         uid !in w.log.destroyed
         && (n in w.contents && c.status.None? ==>
               BeingCreated in w.contents[n].annotations || Handle(w.contents[n]).None?)
       case AtDeleteSnapshot(_) =>
         Handle(c).Some? && Settled(w, uid) && HandleIsOurs(w, uid, Handle(c).value)
         && (n in w.contents ==> c.status == w.contents[n].status && BeingCreated !in w.contents[n].annotations)
       case AtClearStatus(_) =>
         uid in w.log.destroyed && !Present(w, uid)
       case AtRemoveFinalizer(_) =>
         n in w.contents ==>
           ShouldDelete(w.contents[n]) && (c.policy == Delete ==> Handle(w.contents[n]).None?)
       case Done(_, _) => true
  }

  ghost predicate ImportedPass(w: World, pc: Pc)
    requires !pc.Done?
  {
    ImportedTrack(w, pc.copy)
    && (pc.AtRecord? && pc.copy.snapshotHandle.Some? ==> pc.handle in w.log.offLimits)
  }

  ghost predicate PassTrack(w: World, n: string, pc: Pc)
    requires !pc.Done?
  {
    ImportedPass(w, pc) && (IsDynamic(pc.copy) ==> DynamicPass(w, n, pc))
  }

  ghost predicate DriverOk(w: World) {
    && NamesAreProvisioned(w)
    && (forall h :: h in w.log.offLimits && h in w.physical ==> w.physical[h].None?)
    && (forall g, h, name :: Holder(w, g, name) && Holder(w, h, name) ==> g == h)
    && w.log.destroyed <= w.log.condemned
  }

  ghost predicate ClaimsOk(w: World) {
    forall uid :: uid in w.log.provisioned && Present(w, uid) ==>
                    uid in w.log.released
                    || (DynamicContentName(uid) in w.contents
                        && IsDynamic(w.contents[DynamicContentName(uid)])
                        && w.contents[DynamicContentName(uid)].refUid == uid)
  }

  ghost predicate TracksOk(w: World) {
    forall n :: n in w.contents ==> Track(w, w.contents[n])
  }

  ghost predicate PassTracksOk(w: World) {
    forall n :: n in w.passes ==> !w.passes[n].Done? && PassTrack(w, n, w.passes[n])
  }

  ghost predicate Tracked(w: World) {
    DriverOk(w) && ClaimsOk(w) && TracksOk(w) && PassTracksOk(w)
  }

  lemma TrackedMeansNoLeak(w: World)
    requires Tracked(w)
    ensures NoLeak(w)
  {
    forall uid | uid in w.log.provisioned && Present(w, uid) && uid !in w.log.released ensures Claimed(w, uid) {
      assert Track(w, w.contents[DynamicContentName(uid)]);
    }
  }

  // ---- Writes of controllers and users ----

  ghost predicate SameDriver(w: World, w': World) {
    w'.prefix == w.prefix && w'.physical == w.physical && w'.pending == w.pending
  }

  lemma SameDriverSamePresence(w: World, w': World)
    requires SameDriver(w, w')
    ensures forall uid :: Present(w', uid) <==> Present(w, uid)
    ensures forall h, name :: Holder(w', h, name) <==> Holder(w, h, name)
  {
    forall uid ensures Present(w', uid) <==> Present(w, uid) {
      var name := SnapshotName(w.prefix, uid);
      forall h ensures Holder(w', h, name) <==> Holder(w, h, name) {}
    }
  }

  /** A content that the storage system no longer needs, or that is let go on purpose. */
  ghost predicate MayVanish(w: World, w': World, n: string)
    requires n in w.contents
  {
    IsDynamic(w.contents[n]) ==>
      w.contents[n].refUid in w'.log.released
      || (!Present(w, w.contents[n].refUid) && !(n in w.passes && w.passes[n].AtCreateSnapshot?))
  }

  /** What a write has to show, beyond being good, to keep every snapshot claimed. */
  ghost predicate SafeWrite(w: World, w': World) {
    && (forall h :: h in w'.log.offLimits && h in w.physical ==> w.physical[h].None?)
    && (forall n :: n in w'.contents && n !in w.contents ==> Track(w', w'.contents[n]))
    && (forall n :: n in w.contents && n !in w'.contents ==> MayVanish(w, w', n))
    && (forall uid :: uid in w'.log.provisioned && uid !in w.log.provisioned ==> !Present(w, uid))
  }

  lemma EvolvedIsTracked(w: World, w': World, n: string, c: Content, d: Content)
    requires ContentOk(w.log, n, c)
    requires SameDriver(w, w') && Grows(w.log, w'.log) && w'.log.destroyed == w.log.destroyed
    requires Track(w, c) && Evolves(c, d)
    ensures Track(w', d)
  {
    SameDriverSamePresence(w, w');
  }

  lemma PassStaysTracked(w: World, w': World, n: string, pc: Pc)
    requires SameDriver(w, w') && Grows(w.log, w'.log) && w'.log.destroyed == w.log.destroyed
    requires PassOk(w, n, pc) && PassTrack(w, n, pc)
    requires n in w'.contents ==> n in w.contents && Evolves(w.contents[n], w'.contents[n])
    requires n in w.contents && n !in w'.contents && pc.AtCreateSnapshot? ==> pc.copy.refUid in w'.log.released
    ensures PassTrack(w', n, pc)
  {
    SameDriverSamePresence(w, w');
  }

  lemma SafeWritesKeepTracking(w: World, w': World)
    requires Base(w) && Tracked(w) && GoodWrite(w, w') && SafeWrite(w, w')
    ensures Tracked(w')
  {
    SameDriverSamePresence(w, w');
    forall n | n in w'.contents ensures Track(w', w'.contents[n]) {
      if n in w.contents {
        EvolvedIsTracked(w, w', n, w.contents[n], w'.contents[n]);
      }
    }
    forall n | n in w'.passes ensures !w'.passes[n].Done? && PassTrack(w', n, w'.passes[n]) {
      assert PassOk(w, n, w.passes[n]);
      PassStaysTracked(w, w', n, w.passes[n]);
    }
    forall uid | uid in w'.log.provisioned && Present(w', uid) && uid !in w'.log.released
      ensures DynamicContentName(uid) in w'.contents && IsDynamic(w'.contents[DynamicContentName(uid)])
              && w'.contents[DynamicContentName(uid)].refUid == uid
    {
      assert uid in w.log.provisioned;
      var n := DynamicContentName(uid);
      assert n in w.contents && IsDynamic(w.contents[n]);
      assert n !in w'.contents ==> MayVanish(w, w', n);
    }
    NamesStayProvisioned(w, w');
  }

  lemma NamesStayProvisioned(w: World, w': World)
    requires NamesAreProvisioned(w) && SameDriver(w, w') && w.log.provisioned <= w'.log.provisioned
    ensures NamesAreProvisioned(w')
  {
    forall name | IsProvisionedName(w, name) ensures IsProvisionedName(w', name) {
      var uid :| uid in w.log.provisioned && name == SnapshotName(w.prefix, uid);
      assert uid in w'.log.provisioned;
    }
  }

  // ---- Which writes are safe ----

  /** A Delete call that finds no finalizer on a content whose snapshot exists or is being asked for. */
  ghost predicate UnsafeDelete(w: World, step: Step) {
    && (step.Common? ==> step.common.DeleteContent?) && (step.User? ==> step.user.DeleteContentObject?)
    && (step.Common? || step.User?)
    && var n := if step.Common? then step.common.n else step.user.n;
    && n in w.contents && w.contents[n].finalizers == []
    && IsDynamic(w.contents[n]) && w.contents[n].policy == Delete && w.contents[n].refUid !in w.log.released
    && (Present(w, w.contents[n].refUid) || (n in w.passes && w.passes[n].AtCreateSnapshot?))
  }

  lemma NewDynamicIsTracked(w: World, key: Key, c: Content)
    requires Base(w) && Tracked(w) && CommonEnabled(w, CreateContent(key, c))
    ensures SafeWrite(w, ApplyCommon(w, CreateContent(key, c)))
  {
    var w' := ApplyCommon(w, CreateContent(key, c));
    var s := w.snapshots[key];
    assert SnapshotOk(w.log, key, s);
    SameDriverSamePresence(w, w');
    if s.uid !in w.log.provisioned {
      UnprovisionedIsAbsent(w, s.uid);
    }
    assert Track(w', c);
  }

  lemma UnprovisionedIsAbsent(w: World, uid: string)
    requires NamesAreProvisioned(w) && uid !in w.log.provisioned
    ensures !Present(w, uid)
  {
    SnapshotNamesInjective(w.prefix);
  }

  lemma CommonWritesAreSafe(w: World, step: CommonStep)
    requires Base(w) && Tracked(w) && CommonEnabled(w, step) && !UnsafeDelete(w, Common(step))
    ensures SafeWrite(w, ApplyCommon(w, step))
  {
    match step {
      case CreateContent(key, c) => NewDynamicIsTracked(w, key, c);
      case DeleteContent(n) => DeletionIsSafe(w, n, Common(step));
      case AddContentFinalizer(n) =>
      case SetBeingDeleted(n, key) =>
      case BindContent(n, key, className) =>
      case _ =>
    }
  }

  lemma DeletionIsSafe(w: World, n: string, step: Step)
    requires Base(w) && Tracked(w) && n in w.contents && !UnsafeDelete(w, step)
    requires step == Common(DeleteContent(n)) || step == User(DeleteContentObject(n))
    ensures SafeWrite(w, PutContent(w, n, w.contents[n].(deleted := true)))
  {}

  lemma FanWritesAreSafe(w: World, step: FanStep)
    requires Base(w) && Tracked(w) && FanEnabled(w, step)
    ensures SafeWrite(w, ApplyFan(w, step))
  {}

  lemma UserWritesAreSafe(w: World, step: UserStep)
    requires Base(w) && Tracked(w) && UserEnabled(w, step) && !UnsafeDelete(w, User(step))
    ensures SafeWrite(w, ApplyUser(w, step))
  {
    match step {
      case DeleteContentObject(n) => DeletionIsSafe(w, n, User(step));
      case _ =>
    }
  }

  // ---- Steps of passes and of the driver ----

  lemma BeginIsTracked(w: World, n: string, inp: Inputs)
    requires Base(w) && Tracked(w) && n in w.contents
    ensures Begin(w.contents[n], inp).Done? || PassTrack(w, n, Begin(w.contents[n], inp))
  {
    assert Track(w, w.contents[n]);
    assert ContentOk(w.log, n, w.contents[n]);
  }

  /** After a creation the driver holds what it held, and `h` under `name`. */
  lemma HoldersAfterCreation(w: World, w': World, name: string, h: string)
    requires MayCreate(w, name, h) && w'.physical == w.physical[h := Some(name)]
    ensures forall g, m :: Holder(w', g, m) <==> Holder(w, g, m) || (g == h && m == name)
  {
    forall g, m ensures Holder(w', g, m) <==> Holder(w, g, m) || (g == h && m == name) {}
  }

  lemma UniqueAfterCreation(w: World, w': World, name: string, h: string)
    requires DriverOk(w) && MayCreate(w, name, h) && w'.physical == w.physical[h := Some(name)]
    ensures forall g, k, m :: Holder(w', g, m) && Holder(w', k, m) ==> g == k
  {
    HoldersAfterCreation(w, w', name, h);
  }

  lemma FinishedCreationIsTracked(w: World, name: string, h: string)
    requires Base(w) && Tracked(w) && Enabled(w, FinishCreation(name, h))
    ensures Tracked(Apply(w, FinishCreation(name, h)))
  {
    var w' := Apply(w, FinishCreation(name, h));
    HoldersAfterCreation(w, w', name, h);
    UniqueAfterCreation(w, w', name, h);
    assert IsProvisionedName(w, name);
    forall uid ensures Present(w', uid) <==> Present(w, uid) {
      var m := SnapshotName(w.prefix, uid);
      if m !in w.pending {
        assert forall g :: Holder(w', g, m) <==> Holder(w, g, m);
      }
    }
    NamesAfterFinish(w, w', name, h);
    forall n | n in w'.contents ensures Track(w', w'.contents[n]) {
      FinishKeepsTrack(w, w', name, h, w.contents[n]);
    }
    forall n | n in w'.passes ensures !w'.passes[n].Done? && PassTrack(w', n, w'.passes[n]) {
      FinishKeepsPass(w, w', name, h, n, w.passes[n]);
    }
  }

  /** The effect of a late creation, as far as contents and passes can tell. */
  ghost predicate Finished(w: World, w': World, name: string, h: string) {
    && w' == w.(physical := w'.physical)
    && w'.physical == w.physical[h := Some(name)] && name in w.pending && h !in w.log.offLimits
    && MayCreate(w, name, h)
    && (forall uid :: Present(w', uid) <==> Present(w, uid))
    && (forall g, m :: Holder(w', g, m) <==> Holder(w, g, m) || (g == h && m == name))
  }

  lemma FinishKeepsTrack(w: World, w': World, name: string, h: string, c: Content)
    requires Finished(w, w', name, h) && Track(w, c)
    ensures Track(w', c)
  {}

  lemma FinishKeepsPass(w: World, w': World, name: string, h: string, n: string, pc: Pc)
    requires Finished(w, w', name, h) && !pc.Done? && PassTrack(w, n, pc)
    ensures PassTrack(w', n, pc)
  {}

  lemma NamesAfterFinish(w: World, w': World, name: string, h: string)
    requires NamesAreProvisioned(w) && IsProvisionedName(w, name)
    requires w'.prefix == w.prefix && w'.log == w.log
    requires w'.physical == w.physical[h := Some(name)] && w'.pending == w.pending
    ensures NamesAreProvisioned(w')
  {
    forall m | IsProvisionedName(w, m) ensures IsProvisionedName(w', m) {
      var uid :| uid in w.log.provisioned && m == SnapshotName(w.prefix, uid);
      assert uid in w'.log.provisioned;
    }
  }

  // ---- Calls of a pass ----

  /** Nothing changed for any UID but `u`. */
  ghost predicate Elsewhere(w: World, w': World, u: string) {
    && w'.prefix == w.prefix && w'.log.provisioned == w.log.provisioned && w'.log.condemned == w.log.condemned
    && w.log.offLimits <= w'.log.offLimits && w.log.released <= w'.log.released
    && (forall v :: v != u ==> (v in w'.log.destroyed <==> v in w.log.destroyed))
    && (forall v :: v != u ==> (Present(w', v) <==> Present(w, v)))
    && (forall v :: v != u ==> (SnapshotName(w.prefix, v) in w'.pending <==> SnapshotName(w.prefix, v) in w.pending))
    && (forall v, h :: v != u ==> (Holder(w', h, SnapshotName(w.prefix, v)) <==> Holder(w, h, SnapshotName(w.prefix, v))))
    && (forall v, h :: v != u && HandleIsOurs(w, v, h) ==> HandleIsOurs(w', v, h))
  }

  lemma ElsewhereTrack(w: World, w': World, u: string, c: Content)
    requires Elsewhere(w, w', u) && Track(w, c) && (IsDynamic(c) ==> c.refUid != u)
    ensures Track(w', c)
  {}

  lemma ElsewherePass(w: World, w': World, u: string, n: string, pc: Pc)
    requires Elsewhere(w, w', u) && !pc.Done? && PassTrack(w, n, pc) && (IsDynamic(pc.copy) ==> pc.copy.refUid != u)
    requires (n in w.contents <==> n in w'.contents) && (n in w.contents ==> w'.contents[n] == w.contents[n])
    ensures PassTrack(w', n, pc)
  {}

  /** What has to hold again for the content and the pass that moved. */
  ghost predicate SelfOk(w': World, n: string, u: string) {
    && (n in w'.contents ==> Track(w', w'.contents[n]))
    && (n in w'.passes ==> !w'.passes[n].Done? && PassTrack(w', n, w'.passes[n]))
    && (Present(w', u) && u in w'.log.provisioned && u !in w'.log.released ==>
          n in w'.contents && IsDynamic(w'.contents[n]) && w'.contents[n].refUid == u)
  }

  lemma AssembleTracking(w: World, w': World, n: string, u: string)
    requires Base(w) && Tracked(w) && DriverOk(w') && Elsewhere(w, w', u)
    requires DynamicContentName(u) == n && SelfOk(w', n, u)
    requires forall m :: m != n ==> (m in w.contents <==> m in w'.contents)
    requires forall m :: m != n && m in w.contents ==> w'.contents[m] == w.contents[m]
    requires forall m :: m != n && m in w'.passes ==> m in w.passes && w'.passes[m] == w.passes[m]
    ensures Tracked(w')
  {
    forall m | m in w'.contents ensures Track(w', w'.contents[m]) {
      if m != n {
        assert ContentOk(w.log, m, w.contents[m]);
        ElsewhereTrack(w, w', u, w.contents[m]);
      }
    }
    forall m | m in w'.passes ensures !w'.passes[m].Done? && PassTrack(w', m, w'.passes[m]) {
      if m != n {
        assert PassOk(w, m, w.passes[m]);
        ElsewherePass(w, w', u, m, w.passes[m]);
      }
    }
    forall v | v in w'.log.provisioned && Present(w', v) && v !in w'.log.released
      ensures DynamicContentName(v) in w'.contents && IsDynamic(w'.contents[DynamicContentName(v)])
              && w'.contents[DynamicContentName(v)].refUid == v
    {
      if v != u {
        var m := DynamicContentName(v);
        assert m in w.contents && w.contents[m].refUid == v;
        if m == n {
          DynamicContentNameInjective(u, v);
        }
        assert w'.contents[m] == w.contents[m];
      }
    }
  }

  lemma ApiCallElsewhere(w: World, w': World, u: string)
    requires SameDriver(w, w') && w'.log == w.log.(released := w'.log.released) && w.log.released <= w'.log.released
    requires DriverOk(w)
    ensures Elsewhere(w, w', u) && DriverOk(w')
  {
    SameDriverSamePresence(w, w');
    NamesStayProvisioned(w, w');
  }

  /** What is known when a pass over a dynamic content makes an API or status call. */
  ghost predicate AtApiCall(w: World, n: string, pc: Pc, a: Answer) {
    && PassOk(w, n, pc) && PassTrack(w, n, pc) && IsDynamic(pc.copy)
    && !pc.AtCreateSnapshot? && !pc.AtDeleteSnapshot?
    && Fits(pc, StoredContent(w, n), a)
    && (n in w.contents ==> ContentOk(w.log, n, w.contents[n]) && Track(w, w.contents[n]))
  }

  lemma WrittenIsTracked(w: World, n: string, pc: Pc, a: Answer)
    requires AtApiCall(w, n, pc, a) && n in w.contents
    ensures Track(w, Written(pc, w.contents[n], a))
  {
    match pc {
      case AtSetBeingCreated(_, _) =>
      case AtRecord(_, _, _, _, _, _, _) =>
      case AtRemoveBeingCreated(_, why) =>
      case AtErrorStatus(_, _) =>
      case AtClearStatus(_) =>
      case AtRemoveFinalizer(_) =>
      case _ =>
    }
  }

  /** The same world with the content as the call left it. */
  function WithContent(w: World, n: string, c: Content): World {
    w.(contents := w.contents[n := c])
  }

  lemma NextPassIsTracked(w: World, n: string, pc: Pc, a: Answer)
    requires AtApiCall(w, n, pc, a) && n in w.contents
    ensures NextPc(w, n, pc, a).Done? || PassTrack(WithContent(w, n, Written(pc, w.contents[n], a)), n, NextPc(w, n, pc, a))
  {
    var w1 := WithContent(w, n, Written(pc, w.contents[n], a));
    SameDriverSamePresence(w, w1);
    WrittenIsTracked(w, n, pc, a);
    match pc {
      case AtSetBeingCreated(_, _) =>
      case AtRecord(_, _, _, _, _, _, _) =>
      case AtRemoveBeingCreated(_, why) =>
      case AtErrorStatus(_, _) =>
      case AtClearStatus(_) =>
      case AtRemoveFinalizer(_) =>
      case _ =>
    }
  }

  lemma NextPassWithoutContent(w: World, n: string, pc: Pc, a: Answer)
    requires AtApiCall(w, n, pc, a) && n !in w.contents
    ensures NextPc(w, n, pc, a).Done? || PassTrack(w, n, NextPc(w, n, pc, a))
  {}

  /** A pass sees of the world only its own content, the driver and the history. */
  lemma PassTrackFrame(w: World, w': World, n: string, pc: Pc)
    requires SameDriver(w, w') && !pc.Done? && PassTrack(w, n, pc)
    requires w'.log == w.log.(released := w'.log.released) && w.log.released <= w'.log.released
    requires (n in w.contents <==> n in w'.contents) && (n in w.contents ==> w'.contents[n] == w.contents[n])
    ensures PassTrack(w', n, pc)
  {
    SameDriverSamePresence(w, w');
  }

  lemma ApiCallSelf(w: World, n: string, a: Answer)
    requires Base(w) && Tracked(w) && n in w.passes && AtApiCall(w, n, w.passes[n], a)
    ensures SelfOk(Advance(w, n, w.passes[n], a), n, w.passes[n].copy.refUid)
  {
    var pc := w.passes[n];
    var w' := Advance(w, n, pc, a);
    SameDriverSamePresence(w, w');
    if n !in w.contents {
      NextPassWithoutContent(w, n, pc, a);
      if n in w'.passes {
        PassTrackFrame(w, w', n, w'.passes[n]);
      }
    } else {
      WrittenIsOk(w, n, pc, a);
      WrittenIsTracked(w, n, pc, a);
      if n in w'.contents {
        StoredSelf(w, n, a);
      } else {
        assert pc.AtRemoveFinalizer?;
        VanishedSelf(w, n, a);
      }
    }
  }

  lemma StoredSelf(w: World, n: string, a: Answer)
    requires Base(w) && Tracked(w) && n in w.passes && AtApiCall(w, n, w.passes[n], a) && n in w.contents
    requires n in Advance(w, n, w.passes[n], a).contents
    ensures SelfOk(Advance(w, n, w.passes[n], a), n, w.passes[n].copy.refUid)
  {
    var pc := w.passes[n];
    var w' := Advance(w, n, pc, a);
    var d := Written(pc, w.contents[n], a);
    SameDriverSamePresence(w, w');
    WrittenIsOk(w, n, pc, a);
    WrittenIsTracked(w, n, pc, a);
    assert w'.contents[n] == d;
    NextPassIsTracked(w, n, pc, a);
    if n in w'.passes {
      PassTrackFrame(WithContent(w, n, d), w', n, w'.passes[n]);
    }
  }

  /** The last finalizer of a deleted content went: its policy is Retain, or the driver holds nothing for it. */
  lemma VanishedSelf(w: World, n: string, a: Answer)
    requires Base(w) && Tracked(w) && n in w.passes && AtApiCall(w, n, w.passes[n], a) && n in w.contents
    requires w.passes[n].AtRemoveFinalizer? && n !in Advance(w, n, w.passes[n], a).contents
    ensures SelfOk(Advance(w, n, w.passes[n], a), n, w.passes[n].copy.refUid)
  {
    var pc := w.passes[n];
    var w' := Advance(w, n, pc, a);
    SameDriverSamePresence(w, w');
    assert Track(w, w.contents[n]);
    assert n !in w'.passes;
  }

  lemma ApiCallIsTracked(w: World, n: string, a: Answer)
    requires Base(w) && Tracked(w) && n in w.passes && AtApiCall(w, n, w.passes[n], a)
    ensures Tracked(Advance(w, n, w.passes[n], a))
  {
    var pc := w.passes[n];
    var w' := Advance(w, n, pc, a);
    AdvanceKeepsContents(w, n, a);
    ApiCallElsewhere(w, w', pc.copy.refUid);
    ApiCallSelf(w, n, a);
    AssembleTracking(w, w', n, pc.copy.refUid);
  }

  /** What is known when a pass calls CreateSnapshot or DeleteSnapshot. */
  ghost predicate AtRpc(w: World, n: string, a: Answer) {
    && Base(w) && Tracked(w) && n in w.passes
    && Fits(w.passes[n], StoredContent(w, n), a) && DriverMay(w, w.passes[n], a)
  }

  /** CreateSnapshot answered with a handle. */
  lemma CreatedElsewhere(w: World, w': World, u: string, h: string)
    requires DriverOk(w) && u in w.log.provisioned
    requires MayCreate(w, SnapshotName(w.prefix, u), h) && h !in w.log.offLimits
    requires w'.prefix == w.prefix && w'.log == w.log
    requires w'.physical == w.physical[h := Some(SnapshotName(w.prefix, u))]
    requires w'.pending == w.pending - {SnapshotName(w.prefix, u)}
    ensures Elsewhere(w, w', u) && DriverOk(w')
    ensures Holder(w', h, SnapshotName(w.prefix, u)) && HandleIsOurs(w', u, h)
  {
    var name := SnapshotName(w.prefix, u);
    SnapshotNamesInjective(w.prefix);
    HoldersAfterCreation(w, w', name, h);
    UniqueAfterCreation(w, w', name, h);
    assert IsProvisionedName(w', name);
    forall m | IsProvisionedName(w, m) ensures IsProvisionedName(w', m) {
      var uid :| uid in w.log.provisioned && m == SnapshotName(w.prefix, uid);
      assert uid in w'.log.provisioned;
    }
    forall v | v != u ensures Present(w', v) <==> Present(w, v) {
      var m := SnapshotName(w.prefix, v);
      assert forall g :: Holder(w', g, m) <==> Holder(w, g, m);
    }
  }

  /** Only what is pending changed, and only under the name for `u`. */
  lemma PendingElsewhere(w: World, w': World, u: string)
    requires DriverOk(w) && u in w.log.provisioned
    requires w'.prefix == w.prefix && w'.log == w.log && w'.physical == w.physical
    requires w'.pending == w.pending - {SnapshotName(w.prefix, u)} || w'.pending == w.pending + {SnapshotName(w.prefix, u)}
             || w'.pending == w.pending
    ensures Elsewhere(w, w', u) && DriverOk(w')
    ensures forall h, name :: Holder(w', h, name) <==> Holder(w, h, name)
    ensures forall v, h :: HandleIsOurs(w, v, h) <==> HandleIsOurs(w', v, h)
  {
    SnapshotNamesInjective(w.prefix);
    assert IsProvisionedName(w', SnapshotName(w.prefix, u));
    forall m | IsProvisionedName(w, m) ensures IsProvisionedName(w', m) {
      var uid :| uid in w.log.provisioned && m == SnapshotName(w.prefix, uid);
      assert uid in w'.log.provisioned;
    }
    forall h, name ensures Holder(w', h, name) <==> Holder(w, h, name) {}
    forall v | v != u ensures Present(w', v) <==> Present(w, v) {
      var m := SnapshotName(w.prefix, v);
      assert forall g :: Holder(w', g, m) <==> Holder(w, g, m);
    }
  }

  /** DeleteSnapshot went through, or was at least sent; `h` is off limits from now on if it is gone. */
  lemma DeletedElsewhere(w: World, w': World, u: string, h: string, gone: bool)
    requires DriverOk(w) && HandleIsOurs(w, u, h) && u in w.log.condemned
    requires w'.prefix == w.prefix && w'.pending == w.pending
    requires w'.physical == if gone then w.physical - {h} else w.physical
    requires w'.log == w.log.(destroyed := w.log.destroyed + {u},
                              offLimits := if gone then w.log.offLimits + {h} else w.log.offLimits)
    ensures Elsewhere(w, w', u) && DriverOk(w')
    ensures HandleIsOurs(w', u, h)
    ensures gone ==> forall g :: !Holder(w', g, SnapshotName(w.prefix, u))
  {
    SnapshotNamesInjective(w.prefix);
    forall m | IsProvisionedName(w, m) ensures IsProvisionedName(w', m) {
      var uid :| uid in w.log.provisioned && m == SnapshotName(w.prefix, uid);
      assert uid in w'.log.provisioned;
    }
    forall g, m ensures Holder(w', g, m) <==> Holder(w, g, m) && !(gone && g == h) {}
    forall v | v != u ensures Present(w', v) <==> Present(w, v) {}
    forall v, g | v != u && HandleIsOurs(w, v, g) ensures HandleIsOurs(w', v, g) {}
  }

  lemma CreateCallIsTracked(w: World, n: string, a: Answer)
    requires AtRpc(w, n, a) && w.passes[n].AtCreateSnapshot?
    ensures Tracked(Advance(w, n, w.passes[n], a))
  {
    var pc := w.passes[n];
    var w' := Advance(w, n, pc, a);
    var u := pc.copy.refUid;
    assert PassOk(w, n, pc) && PassTrack(w, n, pc);
    AdvanceKeepsContents(w, n, a);
    if a.Created? {
      CreatedElsewhere(w, w', u, a.handle);
      CreatedSelf(w, n, a);
    } else {
      PendingElsewhere(w, w', u);
      CreateFailedSelf(w, n, a);
    }
    AssembleTracking(w, w', n, u);
  }

  lemma CreatedSelf(w: World, n: string, a: Answer)
    requires AtRpc(w, n, a) && w.passes[n].AtCreateSnapshot? && a.Created?
    requires var w' := Advance(w, n, w.passes[n], a);
             && Elsewhere(w, w', w.passes[n].copy.refUid)
             && Holder(w', a.handle, SnapshotName(w.prefix, w.passes[n].copy.refUid))
             && HandleIsOurs(w', w.passes[n].copy.refUid, a.handle)
    ensures SelfOk(Advance(w, n, w.passes[n], a), n, w.passes[n].copy.refUid)
  {
    var pc := w.passes[n];
    var w' := Advance(w, n, pc, a);
    assert PassOk(w, n, pc) && PassTrack(w, n, pc);
    if n in w.contents {
      assert Track(w, w.contents[n]) && ContentOk(w.log, n, w.contents[n]);
    }
  }

  lemma CreateFailedSelf(w: World, n: string, a: Answer)
    requires AtRpc(w, n, a) && w.passes[n].AtCreateSnapshot? && a.CreateFailed?
    requires var w' := Advance(w, n, w.passes[n], a);
             && (forall h, name :: Holder(w', h, name) <==> Holder(w, h, name))
             && (forall v, h :: HandleIsOurs(w, v, h) <==> HandleIsOurs(w', v, h))
    ensures SelfOk(Advance(w, n, w.passes[n], a), n, w.passes[n].copy.refUid)
  {
    var pc := w.passes[n];
    var w' := Advance(w, n, pc, a);
    assert PassOk(w, n, pc) && PassTrack(w, n, pc);
    if n in w.contents {
      assert Track(w, w.contents[n]) && ContentOk(w.log, n, w.contents[n]);
    }
  }

  lemma DeleteCallIsTracked(w: World, n: string, a: Answer)
    requires AtRpc(w, n, a) && w.passes[n].AtDeleteSnapshot? && IsDynamic(w.passes[n].copy)
    ensures Tracked(Advance(w, n, w.passes[n], a))
  {
    var pc := w.passes[n];
    var w' := Advance(w, n, pc, a);
    var u := pc.copy.refUid;
    assert PassOk(w, n, pc) && PassTrack(w, n, pc);
    AdvanceKeepsContents(w, n, a);
    var h := Handle(pc.copy).value;
    DeletedElsewhere(w, w', u, h, DeletesPhysically(pc, a));
    DeleteSelf(w, n, a);
    AssembleTracking(w, w', n, u);
  }

  lemma DeleteSelf(w: World, n: string, a: Answer)
    requires AtRpc(w, n, a) && w.passes[n].AtDeleteSnapshot? && IsDynamic(w.passes[n].copy)
    requires var pc, w' := w.passes[n], Advance(w, n, w.passes[n], a);
             && Handle(pc.copy).Some? && HandleIsOurs(w', pc.copy.refUid, Handle(pc.copy).value)
             && (DeletesPhysically(pc, a) ==> forall g :: !Holder(w', g, SnapshotName(w.prefix, pc.copy.refUid)))
    ensures SelfOk(Advance(w, n, w.passes[n], a), n, w.passes[n].copy.refUid)
  {
    var pc := w.passes[n];
    var w' := Advance(w, n, pc, a);
    assert PassOk(w, n, pc) && PassTrack(w, n, pc);
    forall g, m | Holder(w', g, m) ensures Holder(w, g, m) {}
    if n in w.contents {
      assert Track(w, w.contents[n]) && ContentOk(w.log, n, w.contents[n]);
    }
  }

  // ---- Passes over contents that are not provisioned from a volume ----

  /** DeleteSnapshot for a pre-provisioned content removes a snapshot that no CreateSnapshot made. */
  lemma ImportedDeleteElsewhere(w: World, w': World, h: string, gone: bool)
    requires DriverOk(w) && h in w.log.offLimits
    requires w'.prefix == w.prefix && w'.pending == w.pending
    requires w'.physical == if gone then w.physical - {h} else w.physical
    requires w'.log == w.log
    ensures DriverOk(w')
    ensures forall g, m :: Holder(w', g, m) <==> Holder(w, g, m)
    ensures forall v :: Present(w', v) <==> Present(w, v)
  {
    forall m | IsProvisionedName(w, m) ensures IsProvisionedName(w', m) {
      var uid :| uid in w.log.provisioned && m == SnapshotName(w.prefix, uid);
      assert uid in w'.log.provisioned;
    }
    forall g, m ensures Holder(w', g, m) <==> Holder(w, g, m) {}
  }

  /** The driver looks the same to every dynamic content. */
  ghost predicate SameHolders(w: World, w': World) {
    && w'.prefix == w.prefix && w'.pending == w.pending && w'.log == w.log
    && (forall g, m :: Holder(w', g, m) <==> Holder(w, g, m))
    && (forall v :: Present(w', v) <==> Present(w, v))
    && (forall h :: h in w'.physical ==> h in w.physical && w'.physical[h] == w.physical[h])
    && (forall h :: h in w.physical && h !in w'.physical ==> h in w.log.offLimits)
  }

  lemma SameHoldersTrack(w: World, w': World, c: Content)
    requires SameHolders(w, w') && Track(w, c)
    ensures Track(w', c)
  {}

  lemma SameHoldersPass(w: World, w': World, n: string, pc: Pc)
    requires SameHolders(w, w') && !pc.Done? && PassTrack(w, n, pc)
    requires (n in w.contents <==> n in w'.contents) && (n in w.contents ==> w'.contents[n] == w.contents[n])
    ensures PassTrack(w', n, pc)
  {}

  /** The content and the pass over it after a call for a content that is not dynamic. */
  lemma ImportedSelf(w: World, w': World, n: string, pc: Pc, a: Answer)
    requires PassOk(w, n, pc) && PassTrack(w, n, pc) && !IsDynamic(pc.copy)
    requires Fits(pc, StoredContent(w, n), a) && w'.log == w.log
    requires n in w.contents ==> Track(w, w.contents[n]) && ContentOk(w.log, n, w.contents[n])
    requires n in w'.contents ==> n in w.contents && w'.contents[n] == Written(pc, w.contents[n], a)
    requires n in w.contents && n !in w'.contents ==> pc.AtRemoveFinalizer?
    ensures n in w'.contents ==> Track(w', w'.contents[n])
    ensures NextPc(w, n, pc, a).Done? || PassTrack(w', n, NextPc(w, n, pc, a))
  {}

  lemma ImportedCallIsInvisible(w: World, n: string, a: Answer)
    requires AtRpc(w, n, a) && !IsDynamic(w.passes[n].copy)
    ensures var w' := Advance(w, n, w.passes[n], a); SameHolders(w, w') && DriverOk(w')
  {
    var pc := w.passes[n];
    var w' := Advance(w, n, pc, a);
    assert PassOk(w, n, pc) && PassTrack(w, n, pc) && !pc.AtCreateSnapshot?;
    if pc.AtDeleteSnapshot? {
      var h := RpcHandle(pc.copy).value;
      assert w.log.offLimits + {h} == w.log.offLimits;
      ImportedDeleteElsewhere(w, w', h, DeletesPhysically(pc, a));
    } else {
      SameDriverSamePresence(w, w');
      NamesStayProvisioned(w, w');
    }
  }

  lemma ImportedCallIsTracked(w: World, n: string, a: Answer)
    requires AtRpc(w, n, a) && !IsDynamic(w.passes[n].copy)
    ensures Tracked(Advance(w, n, w.passes[n], a))
  {
    var pc := w.passes[n];
    var w' := Advance(w, n, pc, a);
    assert PassOk(w, n, pc) && PassTrack(w, n, pc);
    AdvanceKeepsContents(w, n, a);
    ImportedCallIsInvisible(w, n, a);
    ImportedSelf(w, w', n, pc, a);
    forall m | m in w'.contents ensures Track(w', w'.contents[m]) {
      if m != n {
        SameHoldersTrack(w, w', w.contents[m]);
      }
    }
    forall m | m in w'.passes ensures !w'.passes[m].Done? && PassTrack(w', m, w'.passes[m]) {
      if m != n {
        SameHoldersPass(w, w', m, w.passes[m]);
      }
    }
    OthersKeepClaims(w, w', n);
  }

  lemma OthersKeepClaims(w: World, w': World, n: string)
    requires ClaimsOk(w) && SameHolders(w, w') && (n in w.contents ==> !IsDynamic(w.contents[n]))
    requires forall m :: m in w.contents && m != n ==> m in w'.contents && w'.contents[m] == w.contents[m]
    ensures ClaimsOk(w')
  {}

  lemma AdvanceIsTracked(w: World, n: string, a: Answer)
    requires AtRpc(w, n, a)
    ensures Tracked(Advance(w, n, w.passes[n], a))
  {
    var pc := w.passes[n];
    assert PassOk(w, n, pc) && PassTrack(w, n, pc);
    if !IsDynamic(pc.copy) {
      ImportedCallIsTracked(w, n, a);
    } else if pc.AtCreateSnapshot? {
      CreateCallIsTracked(w, n, a);
    } else if pc.AtDeleteSnapshot? {
      DeleteCallIsTracked(w, n, a);
    } else {
      assert n in w.contents ==> ContentOk(w.log, n, w.contents[n]) && Track(w, w.contents[n]);
      ApiCallIsTracked(w, n, a);
    }
  }

  lemma WritesKeepTracking(w: World, step: Step)
    requires Base(w) && Tracked(w) && Enabled(w, step) && (step.Common? || step.Fan? || step.User?)
    requires !UnsafeDelete(w, step)
    ensures Tracked(Apply(w, step))
  {
    ApiWrites(w, step);
    match step {
      case Common(c) => CommonWritesAreSafe(w, c);
      case Fan(f) => FanWritesAreSafe(w, f);
      case User(u) => UserWritesAreSafe(w, u);
      case _ =>
    }
    SafeWritesKeepTracking(w, Apply(w, step));
  }

  lemma BeginKeepsTracking(w: World, n: string, inp: Inputs)
    requires Base(w) && Tracked(w) && Enabled(w, BeginPass(n, inp))
    ensures Tracked(Apply(w, BeginPass(n, inp)))
  {
    var w' := Apply(w, BeginPass(n, inp));
    SameDriverSamePresence(w, w');
    NamesStayProvisioned(w, w');
    BeginIsTracked(w, n, inp);
    forall m | m in w'.passes ensures !w'.passes[m].Done? && PassTrack(w', m, w'.passes[m]) {
      PassTrackFrame(w, w', m, w'.passes[m]);
    }
    assert TracksOk(w') by {
      forall m | m in w'.contents ensures Track(w', w'.contents[m]) {
        assert Track(w, w.contents[m]);
      }
    }
  }

  lemma CrashKeepsTracking(w: World)
    requires Base(w) && Tracked(w)
    ensures Tracked(Apply(w, Crash))
  {
    var w' := Apply(w, Crash);
    SameDriverSamePresence(w, w');
    NamesStayProvisioned(w, w');
    assert TracksOk(w') by {
      forall m | m in w'.contents ensures Track(w', w'.contents[m]) {
        assert Track(w, w.contents[m]);
      }
    }
  }

  lemma StepKeepsTracking(w: World, step: Step)
    requires Base(w) && Tracked(w) && Enabled(w, step) && !UnsafeDelete(w, step)
    ensures Tracked(Apply(w, step))
  {
    match step {
      case BeginPass(n, inp) => BeginKeepsTracking(w, n, inp);
      case AdvancePass(n, a) => AdvanceIsTracked(w, n, a);
      case Crash => CrashKeepsTracking(w);
      case FinishCreation(name, h) => FinishedCreationIsTracked(w, name, h);
      case _ => WritesKeepTracking(w, step);
    }
  }
}
