/**
 The order in which objects go: a snapshot outlives the content it owns, a group outlives
 its members' protection, and the source claim stays until the snapshot was ready.
 */
module Teardown {
  import opened Objects
  import opened Sidecar
  import opened Cluster
  import opened Invariants
  import opened Leaks
  import opened Members

  // ---- A snapshot outlives its content ----

  /** No Delete-policy content under the name the snapshot was bound to points back at it. */
  ghost predicate Freed(w: World, uid: string)
    requires uid in w.log.boundTo && uid in w.log.keyOf
  {
    var n := w.log.boundTo[uid];
    n in w.contents && w.contents[n].refUid == uid && w.contents[n].refKey == w.log.keyOf[uid] ==> w.contents[n].policy == Retain
  }

  /** The snapshot is there, under its key, with the finalizer, and still bound to the same name. */
  ghost predicate StillBound(w: World, uid: string)
    requires uid in w.log.boundTo && uid in w.log.keyOf
  {
    var k := w.log.keyOf[uid];
    && k in w.snapshots && w.snapshots[k].uid == uid && SnapshotBound in w.snapshots[k].finalizers
    && w.snapshots[k].status.Some? && w.snapshots[k].status.value.bound == Some(w.log.boundTo[uid])
  }

  ghost predicate BoundOk(w: World, uid: string)
    requires uid in w.log.boundTo && uid in w.log.keyOf
  {
    w.log.boundTo[uid] != "" && (StillBound(w, uid) || (uid in w.log.condemned && Freed(w, uid)))
  }

  /** Members of groups, which a resumed fan-out may bind again after their deletion, never get the bound finalizer. */
  ghost predicate Ordered(w: World) {
    && w.log.memberUids <= w.log.keyOf.Keys && "" !in w.log.keyOf
    && forall uid :: uid in w.log.boundTo ==> uid in w.log.keyOf && (uid !in w.log.memberUids ==> BoundOk(w, uid))
  }

  /** No content starts pointing at `uid`. */
  ghost predicate NoNewReferrer(w: World, w': World, uid: string) {
    forall n :: n in w'.contents && w'.contents[n].refUid == uid && uid in w.log.condemned ==>
      n in w.contents && w.contents[n].refUid == uid && w.contents[n].refKey == w'.contents[n].refKey
      && w.contents[n].policy == w'.contents[n].policy
  }

  lemma BindingAddsNoReferrer(w: World, n: string, key: Key, className: Option<string>, uid: string)
    requires CommonEnabled(w, BindContent(n, key, className)) && SnapshotOk(w.log, key, w.snapshots[key]) && uid != ""
    ensures NoNewReferrer(w, ApplyCommon(w, BindContent(n, key, className)), uid)
  {}

  lemma CommonAddsNoReferrer(w: World, step: CommonStep, uid: string)
    requires SnapshotsOk(w) && CommonEnabled(w, step) && uid != ""
    ensures NoNewReferrer(w, ApplyCommon(w, step), uid)
  {
    match step {
      case CreateContent(key, c) => assert SnapshotOk(w.log, key, w.snapshots[key]);
      case BindContent(n, key, className) =>
        assert SnapshotOk(w.log, key, w.snapshots[key]);
        BindingAddsNoReferrer(w, n, key, className, uid);
      case AddContentFinalizer(_) =>
      case SetBeingDeleted(_, _) =>
      case DeleteContent(_) =>
      case _ => assert ApplyCommon(w, step).contents == w.contents;
    }
  }

  lemma FanAddsNoReferrer(w: World, step: FanStep, uid: string)
    requires FanEnabled(w, step) && uid != "" && uid !in w.log.memberUids
    ensures NoNewReferrer(w, ApplyFan(w, step), uid)
  {}

  lemma UserAddsNoReferrer(w: World, step: UserStep, uid: string)
    requires UserEnabled(w, step) && uid != ""
    ensures NoNewReferrer(w, ApplyUser(w, step), uid)
  {}

  lemma PassAddsNoReferrer(w: World, n: string, pc: Pc, a: Answer, uid: string)
    requires Fits(pc, StoredContent(w, n), a)
    ensures NoNewReferrer(w, Advance(w, n, pc, a), uid)
  {
    AdvanceEffect(w, n, pc, a);
    if n in w.contents {
      WrittenKeepsBinding(pc, w.contents[n], a);
    }
  }

  lemma WrittenKeepsBinding(pc: Pc, c: Content, a: Answer)
    requires Fits(pc, Some(c), a)
    ensures var d := Written(pc, c, a);
            d.refUid == c.refUid && d.refKey == c.refKey && d.policy == c.policy
  {}

  /** A step keeps the order if it adds no referrer and takes the bound finalizer off only when it may. */
  lemma OrderSurvives(w: World, w': World, uid: string)
    requires SnapshotsOk(w) && Ordered(w) && uid in w.log.boundTo && uid !in w.log.memberUids && NoNewReferrer(w, w', uid)
    requires Grows(w.log, w'.log) && uid in w'.log.boundTo && w'.log.boundTo[uid] == w.log.boundTo[uid]
    requires StillBound(w, uid) ==> StillBound(w', uid) || (uid in w.log.condemned && Freed(w, uid))
    ensures BoundOk(w', uid)
  {}

  lemma CommonKeepsNames(w: World, step: CommonStep, uid: string)
    requires SnapshotsOk(w) && Ordered(w) && CommonEnabled(w, step) && uid in w.log.boundTo && uid !in w.log.memberUids
    ensures var w' := ApplyCommon(w, step);
            && w'.log.keyOf == w.log.keyOf && w'.log.condemned == w.log.condemned
            && uid in w'.log.boundTo && w'.log.boundTo[uid] == w.log.boundTo[uid]
  {
    match step {
      case AddSnapshotFinalizers(key, source, bound) => NotedNameIsKept(w, key, uid);
      case _ => OnlyFinalizersBind(w, step);
    }
  }

  lemma OnlyFinalizersBind(w: World, step: CommonStep)
    requires CommonEnabled(w, step) && !step.AddSnapshotFinalizers?
    ensures var g := ApplyCommon(w, step).log;
            g.keyOf == w.log.keyOf && g.condemned == w.log.condemned && g.boundTo == w.log.boundTo
  {}

  /** Noting the name a snapshot is bound to changes nothing for one whose name is noted already. */
  lemma NotedNameIsKept(w: World, key: Key, uid: string)
    requires SnapshotsOk(w) && Ordered(w) && key in w.snapshots && !w.snapshots[key].deleted
    requires uid in w.log.boundTo && uid !in w.log.memberUids
    ensures var g := NoteBound(w.log, w.snapshots[key]);
            g.keyOf == w.log.keyOf && g.condemned == w.log.condemned && uid in g.boundTo && g.boundTo[uid] == w.log.boundTo[uid]
  {
    assert SnapshotOk(w.log, key, w.snapshots[key]) && BoundOk(w, uid);
  }

  lemma CommonKeepsBinding(w: World, step: CommonStep, uid: string)
    requires SnapshotsOk(w) && Ordered(w) && CommonEnabled(w, step) && uid in w.log.boundTo && uid !in w.log.memberUids
    requires StillBound(w, uid) && !step.RemoveSnapshotFinalizers?
    requires uid in ApplyCommon(w, step).log.boundTo && ApplyCommon(w, step).log.boundTo[uid] == w.log.boundTo[uid]
    requires ApplyCommon(w, step).log.keyOf == w.log.keyOf
    ensures StillBound(ApplyCommon(w, step), uid)
  {
    assert SnapshotOk(w.log, w.log.keyOf[uid], w.snapshots[w.log.keyOf[uid]]);
    match step {
      case AddSnapshotFinalizers(key, source, bound) =>
      case WriteSnapshotStatus(key, st) =>
      case AdoptSnapshot(key, _) =>
      case _ =>
        assert ApplyCommon(w, step).snapshots == w.snapshots;
    }
  }

  /** The bound finalizer leaves only when nothing of the content's is left to lose. */
  lemma RemovalKeepsBinding(w: World, key: Key, source: bool, bound: bool, group: bool, uid: string)
    requires uid in w.log.boundTo && uid in w.log.keyOf && w.log.boundTo[uid] != "" && StillBound(w, uid)
    requires CommonEnabled(w, RemoveSnapshotFinalizers(key, source, bound, group))
             && SnapshotOk(w.log, key, w.snapshots[key])
    ensures StillBound(ApplyCommon(w, RemoveSnapshotFinalizers(key, source, bound, group)), uid)
            || (uid in w.log.condemned && Freed(w, uid))
  {
    var k := w.log.keyOf[uid];
    if key == k && bound {
      assert DeletionContentName(w.snapshots[k]) == w.log.boundTo[uid];
    }
  }

  lemma NewBinding(w: World, step: CommonStep, uid: string)
    requires SnapshotsOk(w) && CommonEnabled(w, step) && uid !in w.log.boundTo && uid in ApplyCommon(w, step).log.boundTo
    ensures uid in ApplyCommon(w, step).log.keyOf && BoundOk(ApplyCommon(w, step), uid)
  {
    assert step.AddSnapshotFinalizers? && SnapshotOk(w.log, step.key, w.snapshots[step.key]);
  }

  lemma CommonMayLetGo(w: World, step: CommonStep, uid: string)
    requires SnapshotsOk(w) && Ordered(w) && CommonEnabled(w, step) && uid in w.log.boundTo && uid !in w.log.memberUids
    requires StillBound(w, uid)
    requires uid in ApplyCommon(w, step).log.boundTo && ApplyCommon(w, step).log.boundTo[uid] == w.log.boundTo[uid]
    requires ApplyCommon(w, step).log.keyOf == w.log.keyOf
    ensures StillBound(ApplyCommon(w, step), uid) || (uid in w.log.condemned && Freed(w, uid))
  {
    if step.RemoveSnapshotFinalizers? {
      assert BoundOk(w, uid) && SnapshotOk(w.log, step.key, w.snapshots[step.key]);
      RemovalKeepsBinding(w, step.key, step.source, step.bound, step.group, uid);
    } else {
      CommonKeepsBinding(w, step, uid);
    }
  }

  lemma CommonKeepsBound(w: World, step: CommonStep, uid: string)
    requires SnapshotsOk(w) && Ordered(w) && CommonEnabled(w, step) && uid in w.log.boundTo && uid !in w.log.memberUids
    requires Grows(w.log, ApplyCommon(w, step).log)
    ensures uid in ApplyCommon(w, step).log.boundTo && uid in ApplyCommon(w, step).log.keyOf
            && BoundOk(ApplyCommon(w, step), uid)
  {
    CommonKeepsNames(w, step, uid);
    if StillBound(w, uid) {
      CommonMayLetGo(w, step, uid);
    }
    CommonAddsNoReferrer(w, step, uid);
    OrderSurvives(w, ApplyCommon(w, step), uid);
  }

  lemma CommonKeepsOrder(w: World, step: CommonStep)
    requires SnapshotsOk(w) && ContentsOk(w) && Ordered(w) && CommonEnabled(w, step)
    ensures Ordered(ApplyCommon(w, step))
  {
    var w' := ApplyCommon(w, step);
    CommonIsGood(w, step);
    forall uid | uid in w'.log.boundTo ensures uid in w'.log.keyOf && (uid !in w'.log.memberUids ==> BoundOk(w', uid)) {
      if uid !in w.log.boundTo {
        NewBinding(w, step, uid);
      } else if uid !in w.log.memberUids {
        CommonKeepsBound(w, step, uid);
      }
    }
  }

  lemma CommonIsGood(w: World, step: CommonStep)
    requires SnapshotsOk(w) && ContentsOk(w) && CommonEnabled(w, step)
    ensures GoodWrite(w, ApplyCommon(w, step)) && ApplyCommon(w, step).log.memberUids == w.log.memberUids
  {
    if step.AddContentFinalizer? || step.SetBeingDeleted? || step.DeleteContent? || step.CreateContent? || step.BindContent? {
      CommonContentWrites(w, step);
    } else {
      CommonOtherWrites(w, step);
    }
  }

  lemma FanKeepsBinding(w: World, step: FanStep, uid: string)
    requires SnapshotsOk(w) && Ordered(w) && FanEnabled(w, step) && uid in w.log.boundTo && uid !in w.log.memberUids
    ensures var w' := ApplyFan(w, step);
            && w'.log.boundTo == w.log.boundTo && uid in w'.log.keyOf && uid !in w'.log.memberUids
            && w'.log.keyOf[uid] == w.log.keyOf[uid]
            && (StillBound(w, uid) ==> StillBound(w', uid))
  {
    var k := w.log.keyOf[uid];
    assert k in w.snapshots ==> SnapshotOk(w.log, k, w.snapshots[k]);
    if step.BindMemberSnapshot? {
      assert SnapshotOk(w.log, step.key, w.snapshots[step.key]);
    }
  }

  lemma UserKeepsBinding(w: World, step: UserStep, uid: string)
    requires UserEnabled(w, step) && uid in w.log.boundTo && uid in w.log.keyOf
    requires var k := w.log.keyOf[uid]; k in w.snapshots ==> SnapshotOk(w.log, k, w.snapshots[k])
    ensures var w' := ApplyUser(w, step);
            && w'.log.boundTo == w.log.boundTo && uid in w'.log.keyOf && w'.log.memberUids == w.log.memberUids
            && w'.log.keyOf[uid] == w.log.keyOf[uid]
            && (StillBound(w, uid) ==> StillBound(w', uid))
  {}

  lemma FanKeepsOrder(w: World, step: FanStep)
    requires SnapshotsOk(w) && ContentsOk(w) && Ordered(w) && FanEnabled(w, step)
    ensures Ordered(ApplyFan(w, step))
  {
    var w' := ApplyFan(w, step);
    FanWrites(w, step);
    forall uid | uid in w.log.boundTo && uid !in w.log.memberUids ensures uid in w'.log.keyOf && BoundOk(w', uid) {
      FanKeepsBinding(w, step, uid);
      FanAddsNoReferrer(w, step, uid);
      OrderSurvives(w, w', uid);
    }
    assert w'.log.boundTo == w.log.boundTo && w.log.memberUids <= w'.log.memberUids;
  }

  lemma UserKeepsOrder(w: World, step: UserStep)
    requires SnapshotsOk(w) && ContentsOk(w) && Ordered(w) && UserEnabled(w, step)
    ensures Ordered(ApplyUser(w, step))
  {
    var w' := ApplyUser(w, step);
    UserWrites(w, step);
    forall uid | uid in w.log.boundTo ensures uid in w'.log.keyOf && (uid !in w'.log.memberUids ==> BoundOk(w', uid)) {
      UserKeepsBinding(w, step, uid);
      if uid !in w.log.memberUids {
        UserAddsNoReferrer(w, step, uid);
        OrderSurvives(w, w', uid);
      }
    }
    assert w'.log.boundTo == w.log.boundTo;
  }

  lemma AdvanceKeepsOrder(w: World, n: string, a: Answer)
    requires Base(w) && Ordered(w) && n in w.passes && Fits(w.passes[n], StoredContent(w, n), a)
    ensures Ordered(Advance(w, n, w.passes[n], a))
  {
    var w' := Advance(w, n, w.passes[n], a);
    AdvanceEffect(w, n, w.passes[n], a);
    forall uid | uid in w.log.boundTo && uid !in w.log.memberUids ensures BoundOk(w', uid) {
      PassAddsNoReferrer(w, n, w.passes[n], a, uid);
      OrderSurvives(w, w', uid);
    }
  }

  lemma StepKeepsOrder(w: World, step: Step)
    requires Base(w) && Ordered(w) && Enabled(w, step)
    ensures Ordered(Apply(w, step))
  {
    match step {
      case Common(c) => CommonKeepsOrder(w, c);
      case Fan(f) => FanKeepsOrder(w, f);
      case User(u) => UserKeepsOrder(w, u);
      case AdvancePass(n, a) => AdvanceKeepsOrder(w, n, a);
      case BeginPass(_, _) => SameApiKeepsOrder(w, Apply(w, step));
      case Crash => SameApiKeepsOrder(w, Apply(w, step));
      case FinishCreation(_, _) => SameApiKeepsOrder(w, Apply(w, step));
    }
  }

  lemma SameApiKeepsOrder(w: World, w': World)
    requires Ordered(w) && w'.contents == w.contents && w'.snapshots == w.snapshots && w'.log == w.log
    ensures Ordered(w')
  {
    forall uid | uid in w.log.boundTo && uid !in w.log.memberUids ensures BoundOk(w', uid) {
      assert BoundOk(w, uid);
    }
  }

  lemma {:induction false} RunsKeepOrder(ws: seq<World>, steps: seq<Step>, i: nat)
    requires IsRun(ws, steps) && i < |ws|
    ensures Ordered(ws[i])
  {
    if i > 0 {
      RunsKeepOrder(ws, steps, i - 1);
      RunsKeepBase(ws, steps, i - 1);
      StepKeepsOrder(ws[i - 1], steps[i - 1]);
    }
  }

  /**
   A snapshot that once had the bound finalizer outlives its content: when the finalizer, or the
   whole object, is gone, no Delete-policy content under the name it was bound to points back at it.
   */
  lemma SnapshotOutlivesContent(ws: seq<World>, steps: seq<Step>, i: nat, key: Key, uid: string)
    requires IsRun(ws, steps) && i < |ws| && uid in ws[i].log.boundTo
    requires uid in ws[i].log.keyOf && ws[i].log.keyOf[uid] == key
    requires key in ws[i].snapshots && ws[i].snapshots[key].uid == uid ==> SnapshotBound !in ws[i].snapshots[key].finalizers
    ensures var n := ws[i].log.boundTo[uid];
            n in ws[i].contents && ws[i].contents[n].refUid == uid && ws[i].contents[n].refKey == key
            ==> ws[i].contents[n].policy == Retain
  {
    RunsKeepOrder(ws, steps, i);
    RunsKeepApart(ws, steps, i);
    assert BoundOk(ws[i], uid);
  }

  // ---- A group outlives the protection of its members ----

  lemma CommonRemovesGroupFinalizer(w: World, step: CommonStep, key: Key)
    requires SnapshotsOk(w) && CommonEnabled(w, step) && key in w.snapshots && SnapshotInGroup in w.snapshots[key].finalizers
    requires var m := ApplyCommon(w, step).snapshots; !(key in m && SnapshotInGroup in m[key].finalizers)
    ensures var st := w.snapshots[key].status;
            st.Some? && st.value.groupName.Some? && Key(key.namespace, st.value.groupName.value) !in w.groups
  {
    assert SnapshotOk(w.log, key, w.snapshots[key]);
    match step {
      case RemoveSnapshotFinalizers(k, source, bound, group) =>
      case AddSnapshotFinalizers(_, _, _) =>
      case WriteSnapshotStatus(_, _) =>
      case AdoptSnapshot(_, _) =>
      case _ =>
    }
  }

  lemma OthersKeepGroupFinalizer(w: World, step: Step, key: Key)
    requires SnapshotsOk(w) && Enabled(w, step) && !step.Common? && key in w.snapshots
             && SnapshotInGroup in w.snapshots[key].finalizers
    ensures key in Apply(w, step).snapshots && SnapshotInGroup in Apply(w, step).snapshots[key].finalizers
  {
    match step {
      case Fan(f) => FanKeepsFinalizers(w, f, key);
      case User(u) => UserKeepsFinalizers(w, u, key);
      case _ =>
    }
  }

  lemma FanKeepsFinalizers(w: World, step: FanStep, key: Key)
    requires FanEnabled(w, step) && key in w.snapshots && w.snapshots[key].finalizers != []
    ensures key in ApplyFan(w, step).snapshots && ApplyFan(w, step).snapshots[key].finalizers == w.snapshots[key].finalizers
  {}

  lemma UserKeepsFinalizers(w: World, step: UserStep, key: Key)
    requires UserEnabled(w, step) && key in w.snapshots && w.snapshots[key].finalizers != []
    ensures key in ApplyUser(w, step).snapshots
            && ApplyUser(w, step).snapshots[key].finalizers == w.snapshots[key].finalizers
  {}

  /** A member that carries the in-group finalizer neither loses it nor disappears while the group it names exists. */
  lemma MembersStayWithTheirGroup(ws: seq<World>, steps: seq<Step>, i: nat, key: Key)
    requires IsRun(ws, steps) && i < |steps| && key in ws[i].snapshots && SnapshotInGroup in ws[i].snapshots[key].finalizers
    requires !(key in ws[i + 1].snapshots && SnapshotInGroup in ws[i + 1].snapshots[key].finalizers)
    ensures steps[i].Common? && steps[i].common.RemoveSnapshotFinalizers? && steps[i].common.key == key
    ensures var st := ws[i].snapshots[key].status;
            st.Some? && st.value.groupName.Some? && Key(key.namespace, st.value.groupName.value) !in ws[i].groups
  {
    RunsKeepBase(ws, steps, i);
    if steps[i].Common? {
      CommonRemovesGroupFinalizer(ws[i], steps[i].common, key);
    } else {
      OthersKeepGroupFinalizer(ws[i], steps[i], key);
    }
  }

  // ---- The source claim ----

  /** The source of a snapshot whose content exists but which was not ready yet. */
  ghost predicate SourceKept(w: World, k: Key) {
    k in w.snapshots && !w.snapshots[k].deleted
    && w.snapshots[k].uid in w.log.provisioned && w.snapshots[k].uid !in w.log.everReady
    ==> ClaimHeld(w, k, w.snapshots[k])
  }

  ghost predicate ClaimHeld(w: World, k: Key, s: Snapshot) {
    s.claimName.Some? && Key(k.namespace, s.claimName.value) in w.claims
    && ClaimAsSource in w.claims[Key(k.namespace, s.claimName.value)].finalizers
  }

  ghost predicate SourcesKept(w: World) {
    forall k :: k in w.snapshots ==> SourceKept(w, k)
  }

  /** Claims only gain the finalizer, or lose it when no unready snapshot uses them. */
  ghost predicate ClaimsKept(w: World, w': World) {
    forall ck :: ck in w.claims && ClaimAsSource in w.claims[ck].finalizers ==>
      (ck in w'.claims && ClaimAsSource in w'.claims[ck].finalizers)
      || (forall k :: k in w.snapshots && UsesClaim(k, w.snapshots[k], ck) ==> w.snapshots[k].deleted)
  }

  /** Snapshots in `w'` are new, or as far along as in `w`. */
  ghost predicate SnapshotsAge(w: World, w': World) {
    forall k :: k in w'.snapshots && w'.snapshots[k].uid in w'.log.provisioned ==>
      (k in w.snapshots && w.snapshots[k].uid == w'.snapshots[k].uid && w.snapshots[k].claimName == w'.snapshots[k].claimName
       && (w.snapshots[k].deleted ==> w'.snapshots[k].deleted)
       && (w.snapshots[k].uid in w.log.provisioned || ClaimHeld(w', k, w'.snapshots[k])))
  }

  lemma AgeingKeepsSources(w: World, w': World)
    requires SnapshotsOk(w) && SourcesKept(w) && ClaimsKept(w, w') && SnapshotsAge(w, w')
             && w.log.everReady <= w'.log.everReady
    ensures SourcesKept(w')
  {
    forall k | k in w'.snapshots ensures SourceKept(w', k) {
      if k in w.snapshots {
        assert SnapshotOk(w.log, k, w.snapshots[k]) && SourceKept(w, k);
      }
    }
  }

  lemma CreationAges(w: World, key: Key, c: Content)
    requires SnapshotsOk(w) && CommonEnabled(w, CreateContent(key, c))
    ensures ClaimsKept(w, ApplyCommon(w, CreateContent(key, c))) && SnapshotsAge(w, ApplyCommon(w, CreateContent(key, c)))
  {
    assert SnapshotOk(w.log, key, w.snapshots[key]);
    forall k | k in w.snapshots && w.snapshots[k].uid == w.snapshots[key].uid ensures k == key {
      assert SnapshotOk(w.log, k, w.snapshots[k]);
    }
  }

  lemma ReleaseAges(w: World, ck: Key, skip: Option<Key>)
    requires CommonEnabled(w, RemoveClaimFinalizer(ck, skip))
    ensures ClaimsKept(w, ApplyCommon(w, RemoveClaimFinalizer(ck, skip)))
            && SnapshotsAge(w, ApplyCommon(w, RemoveClaimFinalizer(ck, skip)))
  {
    forall k | k in w.snapshots && UsesClaim(k, w.snapshots[k], ck) ensures w.snapshots[k].deleted {
      assert !ClaimInUse(w, ck, skip);
    }
  }

  lemma CommonAges(w: World, step: CommonStep)
    requires SnapshotsOk(w) && CommonEnabled(w, step)
    ensures ClaimsKept(w, ApplyCommon(w, step)) && SnapshotsAge(w, ApplyCommon(w, step))
  {
    match step {
      case CreateContent(key, c) => CreationAges(w, key, c);
      case RemoveClaimFinalizer(ck, skip) => ReleaseAges(w, ck, skip);
      case _ => OtherCommonAges(w, step);
    }
  }

  lemma OtherCommonAges(w: World, step: CommonStep)
    requires CommonEnabled(w, step) && !step.CreateContent? && !step.RemoveClaimFinalizer?
    ensures ClaimsKept(w, ApplyCommon(w, step)) && SnapshotsAge(w, ApplyCommon(w, step))
  {}

  lemma FanAges(w: World, step: FanStep)
    requires SnapshotsOk(w) && FanEnabled(w, step)
    ensures ClaimsKept(w, ApplyFan(w, step)) && SnapshotsAge(w, ApplyFan(w, step))
  {}

  lemma UserAges(w: World, step: UserStep)
    requires SnapshotsOk(w) && UserEnabled(w, step)
    ensures ClaimsKept(w, ApplyUser(w, step)) && SnapshotsAge(w, ApplyUser(w, step))
  {}

  lemma StepKeepsSources(w: World, step: Step)
    requires Base(w) && SourcesKept(w) && Enabled(w, step)
    ensures SourcesKept(Apply(w, step))
  {
    StepKeepsBase(w, step);
    match step {
      case Common(c) =>
        CommonAges(w, c);
        AgeingKeepsSources(w, Apply(w, step));
      case Fan(f) =>
        FanAges(w, f);
        AgeingKeepsSources(w, Apply(w, step));
      case User(u) =>
        UserAges(w, u);
        AgeingKeepsSources(w, Apply(w, step));
      case AdvancePass(n, a) =>
        AdvanceEffect(w, n, w.passes[n], a);
        AgeingKeepsSources(w, Apply(w, step));
      case _ => AgeingKeepsSources(w, Apply(w, step));
    }
  }

  /**
   From the moment its content is created until the snapshot was first ready or is deleted, the
   source claim carries the as-source finalizer, whatever else is taken from the same claim.
   */
  lemma {:induction false} SourceIsProtected(ws: seq<World>, steps: seq<Step>, i: nat)
    requires IsRun(ws, steps) && i < |ws|
    ensures SourcesKept(ws[i])
  {
    if i > 0 {
      SourceIsProtected(ws, steps, i - 1);
      RunsKeepBase(ws, steps, i - 1);
      StepKeepsSources(ws[i - 1], steps[i - 1]);
    }
  }
}
