/**
 What holds in every reachable world about UIDs, about the shape of the objects, and
 about the copies the sidecar passes work with.
 */
module Invariants {
  import opened Objects
  import opened Sidecar
  import opened Cluster

  // ---- Snapshots ----

  ghost predicate SnapshotOk(g: History, k: Key, s: Snapshot) {
    && s.uid != "" && s.uid in g.keyOf && g.keyOf[s.uid] == k
    && (s.deleted ==> s.uid in g.condemned && s.finalizers != [])
    && (!s.deleted ==> s.uid !in g.condemned)
    && (IsSnapshotReady(s) ==> s.uid in g.everReady)
  }

  ghost predicate LogOk(g: History) {
    g.condemned <= g.keyOf.Keys && g.provisioned <= g.keyOf.Keys && g.memberUids <= g.keyOf.Keys
  }

  ghost predicate SnapshotsOk(w: World) {
    LogOk(w.log) && forall k :: k in w.snapshots ==> SnapshotOk(w.log, k, w.snapshots[k])
  }

  // ---- Contents, stored or copied ----

  /** What a content keeps wherever it is seen: in the API server or in the hands of a pass. */
  ghost predicate ContentOk(g: History, n: string, c: Content) {
    && HasOneSource(c)
    && (IsGroupMember(c) ==> c.volumeHandle.Some? && (Handle(c).Some? ==> GroupHandleOf(c).Some?))
    && (IsDynamic(c) ==> c.refUid != "" && n == DynamicContentName(c.refUid) && c.refUid in g.provisioned)
    && (!IsGroupMember(c) && BeingDeleted in c.annotations ==> c.refUid != "" && c.refUid in g.condemned)
  }

  ghost predicate ContentsOk(w: World) {
    forall n :: n in w.contents ==>
                  ContentOk(w.log, n, w.contents[n]) && (w.contents[n].deleted ==> w.contents[n].finalizers != [])
  }

  // ---- Passes ----

  /** The stored content is the one the pass read, as far as the immutable fields go. */
  ghost predicate SameObject(c: Content, stored: Content) {
    && IsGroupMember(c) == IsGroupMember(stored)
    && c.volumeHandle == stored.volumeHandle
    && c.snapshotHandle == stored.snapshotHandle
    && c.policy == stored.policy
    && (!IsGroupMember(c) && c.refUid != "" ==> c.refUid == stored.refUid)
    && (c.deleted ==> stored.deleted)
    && (BeingDeleted in c.annotations ==> BeingDeleted in stored.annotations)
  }

  ghost predicate PassOk(w: World, n: string, pc: Pc) {
    && !pc.Done?
    && ContentOk(w.log, n, pc.copy)
    && (n in w.contents ==> SameObject(pc.copy, w.contents[n]))
    && match pc
       case AtSetBeingCreated(c, _) => IsDynamic(c)
       case AtCreateSnapshot(c) => IsDynamic(c)
       case AtRecord(c, byCreate, _, _, _, _, _) =>
         if byCreate then IsDynamic(c) else ReadsStatus(c) && MemberKeepsHandles(w, n, c)
       case AtRemoveBeingCreated(c, why) => BeingCreated in c.annotations && (!why.AlreadyReady? ==> IsDynamic(c))
       case AtGetStatus(c) => ReadsStatus(c) && MemberKeepsHandles(w, n, c)
       case AtDeleteSnapshot(c) =>
         ShouldDelete(c) && c.policy == Delete && Handle(c).Some? && GroupHandleOf(c).None? && !IsGroupMember(c)
       case AtErrorStatus(c, _) => IsGroupMember(c) ==> c.status.Some? && MemberKeepsHandles(w, n, c)
       case AtClearStatus(c) => !IsGroupMember(c)
       case _ => true
  }

  /** The pass asks the driver for a status instead of creating. */
  predicate ReadsStatus(c: Content) {
    c.snapshotHandle.Some? || (Handle(c).Some? && GroupHandleOf(c).Some?)
  }

  ghost predicate MemberKeepsHandles(w: World, n: string, c: Content) {
    IsGroupMember(c) && n in w.contents ==> Handle(w.contents[n]).Some? && GroupHandleOf(w.contents[n]).Some?
  }

  ghost predicate PassesOk(w: World) {
    forall n :: n in w.passes ==> PassOk(w, n, w.passes[n])
  }

  ghost predicate Base(w: World) {
    SnapshotsOk(w) && ContentsOk(w) && PassesOk(w)
  }

  // ---- What a step may change ----

  /** History only grows. */
  ghost predicate Grows(g: History, h: History) {
    && (forall u :: u in g.keyOf ==> u in h.keyOf && h.keyOf[u] == g.keyOf[u])
    && g.condemned <= h.condemned && g.provisioned <= h.provisioned
    && g.everReady <= h.everReady && g.memberUids <= h.memberUids && g.released <= h.released
    && g.destroyed <= h.destroyed && g.offLimits <= h.offLimits
  }

  /** A write of a controller or a user touches neither the storage system nor the passes. */
  ghost predicate OnlyApi(w: World, w': World) {
    && w'.prefix == w.prefix && w'.physical == w.physical && w'.pending == w.pending && w'.passes == w.passes
    && Grows(w.log, w'.log) && w'.log.destroyed == w.log.destroyed
  }

  /** What one write of anyone but a pass does to a content that survives it. */
  ghost predicate Evolves(c: Content, d: Content) {
    && SameObject(c, d)
    && (IsGroupMember(c) && Handle(c).Some? && GroupHandleOf(c).Some? ==> Handle(d).Some? && GroupHandleOf(d).Some?)
    && (!IsGroupMember(c) ==>
          && d.status == c.status
          && (BeingCreated in d.annotations <==> BeingCreated in c.annotations))
  }

  /** The contents of `w'` are new, or evolved from those of `w`. */
  ghost predicate ContentsEvolve(w: World, w': World) {
    && ContentsOk(w')
    && (forall n :: n in w.contents && n in w'.contents ==> Evolves(w.contents[n], w'.contents[n]))
    && (forall n :: n in w'.contents && n !in w.contents ==>
          n !in w.passes && w'.contents[n].status.None? && BeingCreated !in w'.contents[n].annotations)
  }

  /** What a write must show: the API side is still well formed and nothing else moved. */
  ghost predicate GoodWrite(w: World, w': World) {
    OnlyApi(w, w') && SnapshotsOk(w') && ContentsEvolve(w, w')
  }

  lemma PutContentKeepsApi(w: World, n: string, c: Content)
    requires SnapshotsOk(w)
    ensures OnlyApi(w, PutContent(w, n, c)) && SnapshotsOk(PutContent(w, n, c))
  {}

  lemma PutContentIsGood(w: World, n: string, c: Content)
    requires SnapshotsOk(w) && ContentsOk(w) && n in w.contents && Evolves(w.contents[n], c) && ContentOk(w.log, n, c)
    ensures GoodWrite(w, PutContent(w, n, c))
  {
    PutContentKeepsApi(w, n, c);
    var w' := PutContent(w, n, c);
    forall m | m in w'.contents ensures ContentOk(w'.log, m, w'.contents[m]) && (w'.contents[m].deleted ==> w'.contents[m].finalizers != []) {
      assert m != n ==> w'.contents[m] == w.contents[m];
    }
    forall m | m in w.contents && m in w'.contents ensures Evolves(w.contents[m], w'.contents[m]) {
      assert m != n ==> w'.contents[m] == w.contents[m];
    }
  }

  lemma AddContentIsGood(w: World, w': World, n: string, c: Content)
    requires ContentsOk(w) && n !in w.contents && n !in w.passes && !c.deleted
    requires OnlyApi(w, w') && SnapshotsOk(w') && w'.contents == w.contents[n := c]
    requires ContentOk(w'.log, n, c) && c.status.None? && BeingCreated !in c.annotations
    ensures GoodWrite(w, w')
  {
    forall m | m in w'.contents ensures ContentOk(w'.log, m, w'.contents[m]) {
      assert m != n ==> ContentOk(w.log, m, w.contents[m]);
    }
  }

  lemma OtherWriteIsGood(w: World, w': World)
    requires ContentsOk(w) && OnlyApi(w, w') && SnapshotsOk(w') && w'.contents == w.contents
    ensures GoodWrite(w, w')
  {
    forall m | m in w'.contents ensures ContentOk(w'.log, m, w'.contents[m]) {
      assert ContentOk(w.log, m, w.contents[m]);
    }
  }

  /** A snapshot object is written back, perhaps with a new deletion timestamp. */
  lemma PutSnapshotIsGood(w: World, key: Key, s: Snapshot)
    requires SnapshotsOk(w) && ContentsOk(w) && key in w.snapshots && s.uid == w.snapshots[key].uid
    requires s.deleted <==> s.uid in w.log.condemned
    ensures GoodWrite(w, PutSnapshot(w, key, s))
  {
    var w' := PutSnapshot(w, key, s);
    assert SnapshotOk(w.log, key, w.snapshots[key]);
    forall k | k in w'.snapshots ensures SnapshotOk(w'.log, k, w'.snapshots[k]) {
      assert SnapshotOk(w.log, k, w.snapshots[k]);
    }
    assert SnapshotsOk(w');
    OtherWriteIsGood(w, w');
  }

  lemma CommonContentWrites(w: World, step: CommonStep)
    requires SnapshotsOk(w) && ContentsOk(w) && CommonEnabled(w, step)
    requires step.AddContentFinalizer? || step.SetBeingDeleted? || step.DeleteContent? || step.CreateContent? || step.BindContent?
    ensures GoodWrite(w, ApplyCommon(w, step))
  {
    match step {
      case AddContentFinalizer(n) =>
        PutContentIsGood(w, n, w.contents[n].(finalizers := w.contents[n].finalizers + [ContentBound]));
      case SetBeingDeleted(n, key) =>
        assert SnapshotOk(w.log, key, w.snapshots[key]);
        PutContentIsGood(w, n, w.contents[n].(annotations := w.contents[n].annotations[BeingDeleted := "yes"]));
      case DeleteContent(n) =>
        PutContentIsGood(w, n, w.contents[n].(deleted := true));
      case CreateContent(key, c) =>
        assert SnapshotOk(w.log, key, w.snapshots[key]);
        var w' := ApplyCommon(w, step);
        assert SnapshotsOk(w');
        AddContentIsGood(w, w', DynamicContentName(w.snapshots[key].uid), c);
      case BindContent(n, key, className) =>
        assert SnapshotOk(w.log, key, w.snapshots[key]);
        assert ContentOk(w.log, n, w.contents[n]);
        PutContentIsGood(w, n, w.contents[n].(
          refUid := w.snapshots[key].uid,
          className := if className.Some? then className else w.contents[n].className));
    }
  }

  lemma CommonOtherWrites(w: World, step: CommonStep)
    requires SnapshotsOk(w) && ContentsOk(w) && CommonEnabled(w, step)
    requires !(step.AddContentFinalizer? || step.SetBeingDeleted? || step.DeleteContent? || step.CreateContent? || step.BindContent?)
    ensures GoodWrite(w, ApplyCommon(w, step))
  {
    var w' := ApplyCommon(w, step);
    match step {
      case AddSnapshotFinalizers(key, source, bound) =>
        var s := w.snapshots[key];
        var s' := s.(finalizers := s.finalizers
                                   + (if source then [SnapshotAsSource] else [])
                                   + (if bound then [SnapshotBound] else []));
        assert w'.snapshots == w.snapshots[key := s'] && w'.log.everReady == w.log.everReady;
        assert SnapshotOk(w.log, key, s);
        forall k | k in w'.snapshots ensures SnapshotOk(w'.log, k, w'.snapshots[k]) {
          assert SnapshotOk(w.log, k, w.snapshots[k]);
        }
        assert SnapshotsOk(w');
        OtherWriteIsGood(w, w');
      case WriteSnapshotStatus(key, st) =>
        PutSnapshotIsGood(w, key, w.snapshots[key].(status := Some(st)));
      case AdoptSnapshot(key, parent) =>
        PutSnapshotIsGood(w, key, w.snapshots[key].(parent := Some(parent)));
      case RemoveSnapshotFinalizers(key, source, bound, group) =>
        PutSnapshotIsGood(w, key, StripFinalizers(w.snapshots[key], source, bound, group));
      case AddClaimFinalizer(ck) =>
        assert SnapshotsOk(w');
        OtherWriteIsGood(w, w');
      case RemoveClaimFinalizer(ck, skip) =>
        assert SnapshotsOk(w');
        OtherWriteIsGood(w, w');
    }
  }

  /** A snapshot object with a fresh UID appears. */
  lemma NewSnapshotIsGood(w: World, w': World, key: Key, s: Snapshot)
    requires SnapshotsOk(w) && ContentsOk(w) && key !in w.snapshots && s.uid != "" && s.uid !in w.log.keyOf
             && !s.deleted && s.status.None?
    requires OnlyApi(w, w') && w'.contents == w.contents && w'.snapshots == w.snapshots[key := s]
    requires w'.log.keyOf == w.log.keyOf[s.uid := key] && w'.log.memberUids <= w.log.memberUids + {s.uid}
    requires w'.log.condemned == w.log.condemned && w'.log.provisioned == w.log.provisioned
    requires w'.log.everReady == w.log.everReady
    ensures GoodWrite(w, w')
  {
    forall k | k in w'.snapshots ensures SnapshotOk(w'.log, k, w'.snapshots[k]) {
      assert k != key ==> SnapshotOk(w.log, k, w.snapshots[k]);
    }
    OtherWriteIsGood(w, w');
  }

  lemma FanWrites(w: World, step: FanStep)
    requires SnapshotsOk(w) && ContentsOk(w) && FanEnabled(w, step)
    ensures GoodWrite(w, ApplyFan(w, step))
  {
    var w' := ApplyFan(w, step);
    match step {
      case CreateMemberContent(n, c) =>
        AddContentIsGood(w, w', n, c);
      case CreateMemberSnapshot(key, s) =>
        NewSnapshotIsGood(w, w', key, s);
      case BindMemberContent(n, uid) =>
        assert ContentOk(w.log, n, w.contents[n]);
        PutContentIsGood(w, n, w.contents[n].(refUid := uid));
      case BindMemberSnapshot(key, n) =>
        PutSnapshotIsGood(w, key, w.snapshots[key].(status := Some(EMPTY_SNAPSHOT_STATUS.(bound := Some(n)))));
      case WriteMemberStatus(n, st) =>
        assert ContentOk(w.log, n, w.contents[n]);
        PutContentIsGood(w, n, w.contents[n].(status := Some(st)));
    }
  }

  lemma SnapshotDeletedIsGood(w: World, key: Key)
    requires SnapshotsOk(w) && ContentsOk(w) && key in w.snapshots
    ensures GoodWrite(w, ApplyUser(w, DeleteSnapshotObject(key)))
  {
    var w' := ApplyUser(w, DeleteSnapshotObject(key));
    var s := w.snapshots[key];
    assert SnapshotOk(w.log, key, s);
    assert w'.log.condemned == w.log.condemned + {s.uid} && w'.contents == w.contents;
    forall k | k in w'.snapshots ensures SnapshotOk(w'.log, k, w'.snapshots[k]) && (k != key ==> w'.snapshots[k] == w.snapshots[k]) {
      assert SnapshotOk(w.log, k, w.snapshots[k]);
    }
    assert SnapshotsOk(w');
    OtherWriteIsGood(w, w');
  }

  lemma UserWrites(w: World, step: UserStep)
    requires SnapshotsOk(w) && ContentsOk(w) && UserEnabled(w, step)
    ensures GoodWrite(w, ApplyUser(w, step))
  {
    match step {
      case CreateSnapshotObject(key, s) =>
        NewSnapshotIsGood(w, ApplyUser(w, step), key, s);
      case DeleteSnapshotObject(key) =>
        SnapshotDeletedIsGood(w, key);
      case CreateContentObject(n, c) =>
        var w' := ApplyUser(w, step);
        assert SnapshotsOk(w');
        AddContentIsGood(w, w', n, c);
      case DeleteContentObject(n) =>
        assert ContentOk(w.log, n, w.contents[n]);
        PutContentIsGood(w, n, w.contents[n].(deleted := true));
      case _ =>
        BystanderWrites(w, step);
    }
  }

  lemma BystanderWrites(w: World, step: UserStep)
    requires SnapshotsOk(w) && ContentsOk(w) && UserEnabled(w, step)
    requires !(step.CreateSnapshotObject? || step.DeleteSnapshotObject? || step.CreateContentObject? || step.DeleteContentObject?)
    ensures GoodWrite(w, ApplyUser(w, step))
  {
    match step {
      case CreateClaim(ck, c) => NothingElseIsGood(w, ApplyUser(w, step));
      case DeleteClaim(ck) => NothingElseIsGood(w, ApplyUser(w, step));
      case SetClaimPhase(ck, phase) => NothingElseIsGood(w, ApplyUser(w, step));
      case CreateGroup(g) => NothingElseIsGood(w, ApplyUser(w, step));
      case RemoveGroup(g) => NothingElseIsGood(w, ApplyUser(w, step));
    }
  }

  lemma NothingElseIsGood(w: World, w': World)
    requires SnapshotsOk(w) && ContentsOk(w)
    requires w' == w.(claims := w'.claims, groups := w'.groups)
    ensures GoodWrite(w, w')
  {
    assert SnapshotsOk(w');
    OtherWriteIsGood(w, w');
  }

  lemma ApiWrites(w: World, step: Step)
    requires Base(w) && Enabled(w, step) && (step.Common? || step.Fan? || step.User?)
    ensures GoodWrite(w, Apply(w, step))
  {
    match step {
      case Common(c) =>
        if c.AddContentFinalizer? || c.SetBeingDeleted? || c.DeleteContent? || c.CreateContent? || c.BindContent? {
          CommonContentWrites(w, c);
        } else {
          CommonOtherWrites(w, c);
        }
      case Fan(f) => FanWrites(w, f);
      case User(u) => UserWrites(w, u);
      case _ =>
    }
  }

  lemma ApiKeepsPasses(w: World, w': World)
    requires Base(w) && OnlyApi(w, w') && ContentsEvolve(w, w')
    ensures PassesOk(w')
  {
    forall n | n in w'.passes ensures PassOk(w', n, w'.passes[n]) {
      assert PassOk(w, n, w.passes[n]);
    }
  }

  // ---- Calls of a pass ----

  lemma WrittenIsOk(w: World, n: string, pc: Pc, a: Answer)
    requires ContentsOk(w) && n in w.contents && PassOk(w, n, pc) && Fits(pc, Some(w.contents[n]), a)
    ensures ContentOk(w.log, n, Written(pc, w.contents[n], a))
    ensures SameObject(w.contents[n], Written(pc, w.contents[n], a))
    ensures MemberKeepsHandles(w, n, pc.copy) && IsGroupMember(pc.copy) && !pc.AtClearStatus? ==>
              Handle(Written(pc, w.contents[n], a)).Some? && GroupHandleOf(Written(pc, w.contents[n], a)).Some?
  {
    assert ContentOk(w.log, n, w.contents[n]);
  }

  /** A call touches at most its own content and adds to the history. */
  lemma AdvanceEffect(w: World, n: string, pc: Pc, a: Answer)
    requires Fits(pc, StoredContent(w, n), a)
    ensures var w' := Advance(w, n, pc, a);
            && w'.prefix == w.prefix && w'.snapshots == w.snapshots && Grows(w.log, w'.log)
            && w'.log == w.log.(released := w'.log.released, destroyed := w'.log.destroyed, offLimits := w'.log.offLimits)
            && (forall m :: m in w.contents && m != n ==> m in w'.contents && w'.contents[m] == w.contents[m])
            && (forall m :: m in w'.contents ==> m in w.contents)
            && (n in w'.contents ==> w'.contents[n] == Written(pc, w.contents[n], a)
                                     && (w'.contents[n].deleted ==> w'.contents[n].finalizers != []))
  {}

  lemma AdvanceKeepsContents(w: World, n: string, a: Answer)
    requires SnapshotsOk(w) && ContentsOk(w) && n in w.passes && PassOk(w, n, w.passes[n])
    requires Fits(w.passes[n], StoredContent(w, n), a)
    ensures var w' := Advance(w, n, w.passes[n], a);
            && w'.prefix == w.prefix && Grows(w.log, w'.log) && SnapshotsOk(w') && ContentsOk(w')
            && w'.log.condemned == w.log.condemned && w'.log.provisioned == w.log.provisioned
            && (forall m :: m in w.contents && m != n ==> m in w'.contents && w'.contents[m] == w.contents[m])
            && (forall m :: m in w'.contents ==> m in w.contents)
            && (n in w'.contents ==> w'.contents[n] == Written(w.passes[n], w.contents[n], a))
  {
    AdvanceEffect(w, n, w.passes[n], a);
    if n in w.contents {
      WrittenIsOk(w, n, w.passes[n], a);
    }
    SettledContentsAreOk(w, Advance(w, n, w.passes[n], a), n);
  }

  lemma SettledContentsAreOk(w: World, w': World, n: string)
    requires SnapshotsOk(w) && ContentsOk(w) && w'.snapshots == w.snapshots
    requires w'.log == w.log.(released := w'.log.released, destroyed := w'.log.destroyed, offLimits := w'.log.offLimits)
    requires forall m :: m in w'.contents && m != n ==> m in w.contents && w'.contents[m] == w.contents[m]
    requires n in w'.contents ==> ContentOk(w.log, n, w'.contents[n]) && (w'.contents[n].deleted ==> w'.contents[n].finalizers != [])
    ensures SnapshotsOk(w') && ContentsOk(w')
  {
    SameSnapshotsAreOk(w, w');
  }

  lemma SameSnapshotsAreOk(w: World, w': World)
    requires SnapshotsOk(w) && w'.snapshots == w.snapshots
    requires w'.log == w.log.(released := w'.log.released, destroyed := w'.log.destroyed, offLimits := w'.log.offLimits)
    ensures SnapshotsOk(w')
  {
    forall k | k in w'.snapshots ensures SnapshotOk(w'.log, k, w'.snapshots[k]) {
      assert SnapshotOk(w.log, k, w.snapshots[k]);
    }
  }

  /** The copy a pass goes on with is the old one, or the content as stored after the call. */
  lemma NextPcIsOk(w: World, w': World, n: string, pc: Pc, a: Answer)
    requires PassOk(w, n, pc) && Fits(pc, StoredContent(w, n), a)
    requires w'.log.condemned == w.log.condemned && w'.log.provisioned == w.log.provisioned
    requires n in w'.contents ==> n in w.contents && w'.contents[n] == Written(pc, w.contents[n], a)
    requires n in w.contents ==> ContentOk(w.log, n, w.contents[n]) && ContentOk(w.log, n, Written(pc, w.contents[n], a))
    requires n in w.contents ==> SameObject(w.contents[n], Written(pc, w.contents[n], a))
    requires n in w.contents && n !in w'.contents ==> pc.AtRemoveFinalizer?
    requires n in w'.contents && MemberKeepsHandles(w, n, pc.copy) && IsGroupMember(pc.copy) && !pc.AtClearStatus? ==>
               Handle(w'.contents[n]).Some? && GroupHandleOf(w'.contents[n]).Some?
    ensures NextPc(w, n, pc, a).Done? || PassOk(w', n, NextPc(w, n, pc, a))
  {}

  /** The pass that made the call is still in line with its content. */
  lemma AdvanceKeepsItsPass(w: World, n: string, a: Answer)
    requires ContentsOk(w) && SnapshotsOk(w) && n in w.passes && PassOk(w, n, w.passes[n])
    requires Fits(w.passes[n], StoredContent(w, n), a)
    ensures var next := NextPc(w, n, w.passes[n], a);
            next.Done? || PassOk(Advance(w, n, w.passes[n], a), n, next)
  {
    var pc := w.passes[n];
    AdvanceKeepsContents(w, n, a);
    if n in w.contents {
      WrittenIsOk(w, n, pc, a);
    }
    NextPcIsOk(w, Advance(w, n, pc, a), n, pc, a);
  }

  lemma AdvanceKeepsBase(w: World, n: string, a: Answer)
    requires Base(w) && n in w.passes && Fits(w.passes[n], StoredContent(w, n), a)
    ensures Base(Advance(w, n, w.passes[n], a))
  {
    var w' := Advance(w, n, w.passes[n], a);
    assert PassOk(w, n, w.passes[n]);
    AdvanceKeepsContents(w, n, a);
    AdvanceKeepsItsPass(w, n, a);
    forall m | m in w'.passes ensures PassOk(w', m, w'.passes[m]) {
      assert m != n ==> PassOk(w, m, w.passes[m]);
    }
  }

  lemma BeginIsOk(w: World, n: string, inp: Inputs)
    requires ContentsOk(w) && n in w.contents
    ensures Begin(w.contents[n], inp).Done? || PassOk(w, n, Begin(w.contents[n], inp))
  {
    assert ContentOk(w.log, n, w.contents[n]);
  }

  lemma StepKeepsBase(w: World, step: Step)
    requires Base(w) && Enabled(w, step)
    ensures Base(Apply(w, step)) && Grows(w.log, Apply(w, step).log) && Apply(w, step).prefix == w.prefix
  {
    var w' := Apply(w, step);
    match step {
      case BeginPass(n, inp) =>
        BeginIsOk(w, n, inp);
        forall m | m in w'.passes ensures PassOk(w', m, w'.passes[m]) {
          assert m != n ==> PassOk(w, m, w.passes[m]);
        }
      case AdvancePass(n, a) =>
        assert PassOk(w, n, w.passes[n]);
        AdvanceKeepsContents(w, n, a);
        AdvanceKeepsBase(w, n, a);
      case Crash =>
      case FinishCreation(name, h) =>
        forall m | m in w'.passes ensures PassOk(w', m, w'.passes[m]) {
          assert PassOk(w, m, w.passes[m]);
        }
      case _ =>
        ApiWrites(w, step);
        ApiKeepsPasses(w, w');
    }
  }
}
