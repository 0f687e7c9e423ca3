/**
 Runs from scratch into the deletions that never drain: the content waits for a creation or a
 deletion that can no longer be sent, or a member's status does not name its group; into one
 that drains in the wrong order; and into a crash that does not keep a request from converging.
 */
module Stalling {
  import opened Objects
  import opened Sidecar
  import opened Cluster
  import opened Common
  import opened Rounds
  import opened Departing
  import opened Draining
  import Converging
  import Leaks

  function Requested(uid: string, claim: string, class_: string): Snapshot {
    Snapshot(uid, Some(claim), None, Some(class_), None, false, [], None)
  }

  function Last(ws: seq<World>): World
    requires ws != []
  {
    ws[|ws| - 1]
  }

  /** One more step at the end of a run. */
  lemma GoesOn(ws: seq<World>, steps: seq<Cluster.Step>, step: Cluster.Step) returns (vs: seq<World>, ts: seq<Cluster.Step>)
    requires IsRun(ws, steps) && Enabled(Last(ws), step)
    ensures IsRun(vs, ts) && vs[0] == ws[0] && Last(vs) == Apply(Last(ws), step)
  {
    RunGoesOn(ws, steps, step);
    vs, ts := ws + [Apply(Last(ws), step)], steps + [step];
  }

  /** The snapshot is requested and its content created. */
  lemma CreatedRun(w: World, key: Key, s: Snapshot, c: Content) returns (ws: seq<World>, steps: seq<Cluster.Step>)
    requires Initial(w) && s.uid != "" && s.claimName.Some? && s.className.Some?
    requires s == Requested(s.uid, s.claimName.value, s.className.value)
    requires RefersTo(c, key, s) && c.volumeHandle.Some? && c.snapshotHandle.None? && c.className.Some?
    requires !c.deleted && c.finalizers == [] && OnlySecretAnnotations(c.annotations, false) && c.status.None?
    ensures IsRun(ws, steps) && ws[0] == w
    ensures var v := Last(ws);
            && v.prefix == w.prefix && v.physical == w.physical && v.contents == map[DynamicContentName(s.uid) := c] && v.passes == map[]
            && v.snapshots == map[key := s] && v.log.offLimits == {} && forall ck <- v.claims :: v.claims[ck].restores.None?
  {
    ws := Leaks.EarlyRun(w, key, s.uid, s.claimName.value, s.className.value);
    steps := Leaks.EarlySteps(key, s.uid, s.claimName.value, s.className.value);
    assert Last(ws) == ws[3] && Enabled(ws[3], Cluster.Common(CreateContent(key, c)));
    ws, steps := GoesOn(ws, steps, Cluster.Common(CreateContent(key, c)));
  }

  /** Both get their first finalizers. */
  lemma ProtectedRun(ws: seq<World>, steps: seq<Cluster.Step>, key: Key, s: Snapshot, n: string, c: Content)
    returns (vs: seq<World>, ts: seq<Cluster.Step>)
    requires IsRun(ws, steps) && Last(ws).contents == map[n := c] && Last(ws).snapshots == map[key := s]
    requires !s.deleted && s.finalizers == [] && !c.deleted && c.finalizers == []
    ensures IsRun(vs, ts) && vs[0] == ws[0]
    ensures Last(vs) == Last(ws).(
              contents := map[n := c.(finalizers := [ContentBound])],
              snapshots := map[key := s.(finalizers := [SnapshotAsSource])])
  {
    assert c.finalizers + [ContentBound] == [ContentBound] && s.finalizers + [SnapshotAsSource] + [] == [SnapshotAsSource];
    vs, ts := GoesOn(ws, steps, Cluster.Common(AddContentFinalizer(n)));
    assert Last(vs).contents == map[n := c.(finalizers := [ContentBound])];
    vs, ts := GoesOn(vs, ts, Cluster.Common(AddSnapshotFinalizers(key, true, false)));
    assert Last(vs).snapshots == map[key := s.(finalizers := [SnapshotAsSource])];
  }

  /** A pass announces the creation. */
  lemma AnnouncedRun(ws: seq<World>, steps: seq<Cluster.Step>, n: string, c: Content, inp: Inputs)
    returns (vs: seq<World>, ts: seq<Cluster.Step>)
    requires IsRun(ws, steps) && Last(ws).contents == map[n := c] && Last(ws).passes == map[]
    requires c.volumeHandle.Some? && c.snapshotHandle.None? && c.className.Some? && !c.deleted && c.status.None?
             && OnlySecretAnnotations(c.annotations, false)
    requires inp.classFound && inp.secretsOk
    ensures IsRun(vs, ts) && vs[0] == ws[0]
    ensures Last(vs) == Last(ws).(
              contents := map[n := WithBeingCreated(c)],
              passes := map[n := AfterBeingCreated(WithBeingCreated(c), inp.paramsOk)])
  {
    vs, ts := GoesOn(ws, steps, BeginPass(n, inp));
    assert Last(vs).passes == map[n := AtSetBeingCreated(c, inp.paramsOk)];
    vs, ts := GoesOn(vs, ts, AdvancePass(n, ApiOk(0)));
    assert Last(vs).contents == map[n := WithBeingCreated(c)];
  }

  /** The parameters are found bad only after the announcement, and the pass ends. */
  lemma RejectedRun(ws: seq<World>, steps: seq<Cluster.Step>, n: string, c: Content)
    returns (vs: seq<World>, ts: seq<Cluster.Step>)
    requires IsRun(ws, steps) && Last(ws).contents == map[n := c] && Last(ws).passes == map[n := AtErrorStatus(c, BadParameters)]
    requires !c.deleted && c.status.None?
    ensures IsRun(vs, ts) && vs[0] == ws[0]
    ensures Last(vs) == Last(ws).(contents := map[n := c.(status := Some(FailedStatus(0, BadParameters)))], passes := map[])
  {
    vs, ts := GoesOn(ws, steps, AdvancePass(n, ApiOk(0)));
    assert Last(vs).contents == map[n := c.(status := Some(FailedStatus(0, BadParameters)))];
  }

  /** Or the driver takes the snapshot; then its handle is recorded and the announcement taken back. */
  lemma TakenRun(ws: seq<World>, steps: seq<Cluster.Step>, n: string, c: Content, h: string)
    returns (vs: seq<World>, ts: seq<Cluster.Step>)
    requires IsRun(ws, steps) && Last(ws).contents == map[n := c] && Last(ws).passes == map[n := AtCreateSnapshot(c)]
    requires !c.deleted && c.status.None? && c.refUid != "" && c.volumeHandle.Some? && BeingCreated in c.annotations
    requires h !in Last(ws).physical && h !in Last(ws).log.offLimits && forall g <- Last(ws).physical :: Last(ws).physical[g].None?
    ensures IsRun(vs, ts) && vs[0] == ws[0]
    ensures var v := Last(vs);
            && v.contents == map[n := c] && v.passes == map[n := AtRecord(c, true, h, true, 1, 1, "")]
            && v.snapshots == Last(ws).snapshots && v.claims == Last(ws).claims
  {
    vs, ts := GoesOn(ws, steps, AdvancePass(n, Created(h, true, 1, 1)));
    assert Last(vs).passes == map[n := AtRecord(c, true, h, true, 1, 1, "")];
  }

  lemma RecordedRun(ws: seq<World>, steps: seq<Cluster.Step>, n: string, c: Content, h: string)
    returns (vs: seq<World>, ts: seq<Cluster.Step>)
    requires IsRun(ws, steps) && Last(ws).contents == map[n := c] && Last(ws).passes == map[n := AtRecord(c, true, h, true, 1, 1, "")]
    requires !c.deleted && c.status.None? && BeingCreated in c.annotations
    ensures IsRun(vs, ts) && vs[0] == ws[0]
    ensures var d := c.(status := Some(MergeStatus(None, h, true, 1, 1, "")));
            Last(vs) == Last(ws).(contents := map[n := d], passes := map[n := AtRemoveBeingCreated(d, AfterCreate)])
  {
    vs, ts := GoesOn(ws, steps, AdvancePass(n, ApiOk(0)));
    assert Last(vs).contents == map[n := c.(status := Some(MergeStatus(None, h, true, 1, 1, "")))];
  }

  lemma UnannouncedRun(ws: seq<World>, steps: seq<Cluster.Step>, n: string, c: Content)
    returns (vs: seq<World>, ts: seq<Cluster.Step>)
    requires IsRun(ws, steps) && Last(ws).contents == map[n := c] && Last(ws).passes == map[n := AtRemoveBeingCreated(c, AfterCreate)]
    requires !c.deleted && IsReady(c) && BeingCreated in c.annotations
    ensures IsRun(vs, ts) && vs[0] == ws[0]
    ensures Last(vs) == Last(ws).(contents := map[n := WithoutBeingCreated(c)], passes := map[])
  {
    vs, ts := GoesOn(ws, steps, AdvancePass(n, ApiOk(0)));
    assert Last(vs).contents == map[n := WithoutBeingCreated(c)];
  }

  /** The user deletes the snapshot: from here on the pair is dying. */
  lemma DyingRun(ws: seq<World>, steps: seq<Cluster.Step>, l: Lookup, key: Key, s: Snapshot, n: string, c: Content)
    returns (vs: seq<World>, ts: seq<Cluster.Step>)
    requires IsRun(ws, steps) && Last(ws).contents == map[n := c] && Last(ws).passes == map[] && Last(ws).snapshots == map[key := s]
    requires forall ck <- Last(ws).claims :: Last(ws).claims[ck].restores.None?
    requires OwnContent(c) && !c.deleted && RefersTo(c, key, s) && n == DynamicContentName(s.uid)
    requires s.finalizers == [SnapshotAsSource] && s.status.None? && s.claimName.Some? && s.className.Some? && s.className.value in l.classes
    ensures IsRun(vs, ts) && vs[0] == ws[0] && Dying(Last(vs), l, key, n) && Last(vs).contents == Last(ws).contents
            && Last(vs).snapshots == map[key := s.(deleted := true)]
  {
    vs, ts := GoesOn(ws, steps, User(DeleteSnapshotObject(key)));
    assert Last(vs).snapshots == map[key := s.(deleted := true)];
    forall ck | ck in Last(vs).claims ensures !RestoresFrom(ck, Last(vs).claims[ck], key) {}
  }

  /**
   Whatever the names, the class's parameters being rejected is enough: its creation is announced before they
   are looked at, and after its deletion the content waits for good.
   */
  lemma RunIntoVainWait(
    w: World, l: Lookup, key: Key, uid: string, claim: string, class_: string, volume: string, driver: string)
    requires Initial(w) && uid != "" && class_ in l.classes
    ensures exists ws, steps ::
              && IsRun(ws, steps) && ws[0] == w && Dying(Last(ws), l, key, DynamicContentName(uid))
              && Blocked(Last(ws), DynamicContentName(uid), Inputs(true, false, true, true))
  {
    var n := DynamicContentName(uid);
    var s, c := Requested(uid, claim, class_), Leaks.NewContent(key, uid, volume, driver, class_);
    var ws, steps := CreatedRun(w, key, s, c);
    ws, steps := ProtectedRun(ws, steps, key, s, n, c);
    var kept := c.(finalizers := [ContentBound]);
    ws, steps := AnnouncedRun(ws, steps, n, kept, Inputs(true, false, true, true));
    ws, steps := RejectedRun(ws, steps, n, WithBeingCreated(kept));
    var d := WithBeingCreated(kept).(status := Some(FailedStatus(0, BadParameters)));
    ws, steps := DyingRun(ws, steps, l, key, s.(finalizers := [SnapshotAsSource]), n, d);
    assert Blocked(Last(ws), n, Inputs(true, false, true, true));
  }

  /** And so are the secrets of the class, named on the content, becoming unreadable once the snapshot was taken. */
  lemma RunIntoLostSecrets(
    w: World, l: Lookup, key: Key, uid: string, claim: string, class_: string, volume: string, driver: string,
    secret: string, namespace: string, h: string)
    requires Initial(w) && uid != "" && class_ in l.classes && h !in w.physical
    ensures exists ws, steps ::
              && IsRun(ws, steps) && ws[0] == w && Dying(Last(ws), l, key, DynamicContentName(uid))
              && Blocked(Last(ws), DynamicContentName(uid), Inputs(true, true, false, true))
              && !Waits(Last(ws).contents[DynamicContentName(uid)], Inputs(true, true, false, true))
  {
    var n := DynamicContentName(uid);
    var s := Requested(uid, claim, class_);
    var c := Leaks.NewContent(key, uid, volume, driver, class_).(annotations := SecretAnnotations(SecretRef(secret, namespace)));
    var ws, steps := CreatedRun(w, key, s, c);
    ws, steps := ProtectedRun(ws, steps, key, s, n, c);
    var kept := c.(finalizers := [ContentBound]);
    ws, steps := AnnouncedRun(ws, steps, n, kept, Inputs(true, true, true, true));
    ws, steps := TakenRun(ws, steps, n, WithBeingCreated(kept), h);
    ws, steps := RecordedRun(ws, steps, n, WithBeingCreated(kept), h);
    var d := WithBeingCreated(kept).(status := Some(MergeStatus(None, h, true, 1, 1, "")));
    ws, steps := UnannouncedRun(ws, steps, n, d);
    ws, steps := DyingRun(ws, steps, l, key, s.(finalizers := [SnapshotAsSource]), n, WithoutBeingCreated(d));
    assert Blocked(Last(ws), n, Inputs(true, true, false, true));
  }

  // ---- Deleted before the bound finalizer was added ----

  lemma TurnLetsGo(w: World, l: Lookup, key: Key, n: string)
    requires Dying(w, l, key, n) && key in w.snapshots && n in w.contents && w.contents[n].finalizers != []
    requires w.snapshots[key].finalizers == [SnapshotAsSource]
    ensures var w' := SyncSnapshotByKey(Start(w, []), l, key).ctx.w;
            key !in w'.snapshots && n in w'.contents && w'.contents[n].deleted
  {
    var s := w.snapshots[key];
    TurnIsDeletion(w, l, key, n);
    ClaimRelease(Start(w, []), key, s, None);
    var c := RemoveClaimProtection(Start(w, []), key, s, None).ctx;
    StillNotRestored(w, c.w, key);
    SnapshotStaysIff(c, key, s);
  }

  /** A snapshot deleted between the pass that makes its content and the one that adds the bound finalizer goes first. */
  lemma RunIntoEarlyDeparture(
    w: World, l: Lookup, key: Key, uid: string, claim: string, class_: string, volume: string, driver: string)
    requires Initial(w) && uid != "" && class_ in l.classes
    ensures exists ws, steps ::
              && IsRun(ws, steps) && ws[0] == w && key in Last(ws).snapshots && Last(ws).snapshots[key].deleted
              && var w' := SyncSnapshotByKey(Start(Last(ws), []), l, key).ctx.w;
              key !in w'.snapshots && DynamicContentName(uid) in w'.contents && w'.contents[DynamicContentName(uid)].deleted
  {
    var n := DynamicContentName(uid);
    var s, c := Requested(uid, claim, class_), Leaks.NewContent(key, uid, volume, driver, class_);
    var ws, steps := CreatedRun(w, key, s, c);
    ws, steps := ProtectedRun(ws, steps, key, s, n, c);
    ws, steps := DyingRun(ws, steps, l, key, s.(finalizers := [SnapshotAsSource]), n, c.(finalizers := [ContentBound]));
    TurnLetsGo(Last(ws), l, key, n);
  }

  // ---- A member deleted before its status names the group ----

  /** The objects of a fan-out, as they are created. */
  predicate MemberPair(key: Key, s: Snapshot, n: string, c: Content) {
    && '-' in s.uid && !s.deleted && s.status.None? && s.finalizers == [SnapshotInGroup]
    && s.parent.Some? && s.contentName.None? && s.claimName.Some? && s.className.None?
    && DigestName(n) && IsGroupMember(c) && OnlySecretAnnotations(c.annotations, true) && c.refKey == key && c.refUid == ""
    && c.volumeHandle.Some? && c.snapshotHandle.None? && !c.deleted && c.finalizers == [] && c.status.None? && c.policy == Delete
  }

  lemma FannedOutRun(w: World, key: Key, s: Snapshot, n: string, c: Content) returns (ws: seq<World>, steps: seq<Cluster.Step>)
    requires Initial(w) && MemberPair(key, s, n, c)
    ensures IsRun(ws, steps) && ws[0] == w
    ensures var v := Last(ws);
            && v.contents == map[n := c] && v.snapshots == map[key := s] && v.claims == map[] && v.passes == map[]
            && v.groups == {Key(key.namespace, s.parent.value)} && v.log.memberUids == {s.uid}
  {
    ws, steps := [w], [];
    ws, steps := GoesOn(ws, steps, User(CreateGroup(Key(key.namespace, s.parent.value))));
    ws, steps := GoesOn(ws, steps, Fan(CreateMemberContent(n, c)));
    ws, steps := GoesOn(ws, steps, Fan(CreateMemberSnapshot(key, s)));
  }

  lemma MemberBoundRun(ws: seq<World>, steps: seq<Cluster.Step>, key: Key, s: Snapshot, n: string, c: Content)
    returns (vs: seq<World>, ts: seq<Cluster.Step>)
    requires IsRun(ws, steps) && MemberPair(key, s, n, c) && s.uid in Last(ws).log.memberUids
    requires Last(ws).contents == map[n := c] && Last(ws).snapshots == map[key := s]
    ensures IsRun(vs, ts) && vs[0] == ws[0]
    ensures Last(vs) == Last(ws).(
              contents := map[n := c.(refUid := s.uid)],
              snapshots := map[key := s.(status := Some(EMPTY_SNAPSHOT_STATUS.(bound := Some(n))),
                                         finalizers := [SnapshotInGroup, SnapshotAsSource])])
  {
    vs, ts := GoesOn(ws, steps, Fan(BindMemberContent(n, s.uid)));
    assert Last(vs).contents == map[n := c.(refUid := s.uid)];
    vs, ts := GoesOn(vs, ts, Fan(BindMemberSnapshot(key, n)));
    var bound := s.(status := Some(EMPTY_SNAPSHOT_STATUS.(bound := Some(n))));
    assert Last(vs).snapshots == map[key := bound];
    vs, ts := GoesOn(vs, ts, Cluster.Common(AddSnapshotFinalizers(key, true, false)));
    assert bound.finalizers + [SnapshotAsSource] + [] == [SnapshotInGroup, SnapshotAsSource];
    assert Last(vs).snapshots == map[key := bound.(finalizers := [SnapshotInGroup, SnapshotAsSource])];
  }

  lemma DeletedWithGroupRun(ws: seq<World>, steps: seq<Cluster.Step>, key: Key, s: Snapshot, group: Key)
    returns (vs: seq<World>, ts: seq<Cluster.Step>)
    requires IsRun(ws, steps) && Last(ws).snapshots == map[key := s] && s.finalizers != [] && Last(ws).groups == {group}
    ensures IsRun(vs, ts) && vs[0] == ws[0]
    ensures Last(vs) == Last(ws).(snapshots := map[key := s.(deleted := true)], groups := {}, log := Last(vs).log)
  {
    vs, ts := GoesOn(ws, steps, User(DeleteSnapshotObject(key)));
    assert Last(vs).snapshots == map[key := s.(deleted := true)];
    vs, ts := GoesOn(vs, ts, User(RemoveGroup(group)));
  }

  /** Fanned out and bound, then deleted with its group before its own first sync: the member is never let go. */
  lemma RunIntoForgottenMember(w: World, l: Lookup, key: Key, s: Snapshot, n: string, c: Content)
    requires Initial(w) && MemberPair(key, s, n, c)
    ensures exists ws, steps ::
              && IsRun(ws, steps) && ws[0] == w && Dying(Last(ws), l, key, n) && Forgotten(Last(ws), key)
              && Last(ws).groups == {} && IsDeletionCandidate(Last(ws).snapshots[key])
  {
    var ws, steps := FannedOutRun(w, key, s, n, c);
    ws, steps := MemberBoundRun(ws, steps, key, s, n, c);
    ws, steps := DeletedWithGroupRun(ws, steps, key, Last(ws).snapshots[key], Key(key.namespace, s.parent.value));
    var d := Last(ws).snapshots[key];
    assert n != "" && SnapshotInGroup in d.finalizers && SnapshotAsSource in d.finalizers;
  }

  // ---- A crash that does no harm ----

  /**
   A crash before anything but the announcement was recorded: the content has no finalizer and no status, the
   snapshot neither, and being-created is on. The request still converges from there.
   */
  lemma RunIntoCrash(
    w: World, l: Lookup, key: Key, uid: string, claim: string, class_: string, volume: string, driver: string)
    requires Initial(w) && uid != "" && claim != "" && class_ in l.classes
    ensures exists ws, steps ::
              && IsRun(ws, steps) && ws[0] == w && |steps| > 0 && steps[|steps| - 1] == Crash
              && Converging.Begun(Last(ws), l, key, DynamicContentName(uid)) && Converging.SourceIsOurs(Last(ws), key)
              && Last(ws).snapshots[key] == Requested(uid, claim, class_)
              && DynamicContentName(uid) in Last(ws).contents && BeingCreated in Last(ws).contents[DynamicContentName(uid)].annotations
  {
    var n := DynamicContentName(uid);
    var s, c := Requested(uid, claim, class_), Leaks.NewContent(key, uid, volume, driver, class_);
    var ws, steps := CreatedRun(w, key, s, c);
    ws, steps := AnnouncedRun(ws, steps, n, c, Inputs(true, true, true, true));
    RunGoesOn(ws, steps, Crash);
    var vs, ts := ws + [Apply(Last(ws), Crash)], steps + [Crash];
    assert Last(vs) == Last(ws).(passes := map[]);
  }
}
