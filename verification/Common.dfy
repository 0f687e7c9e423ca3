/**
 The common controller's passes over one VolumeSnapshot or one VolumeSnapshotContent, as
 functions of the objects it reads and of the fate of each API call. Every write is a
 step of the cluster, made where that step is enabled.
 */
module Common {
  import opened Objects
  import opened Sidecar
  import opened Cluster
  import opened Mirror

  // ---- What a pass works with ----

  datatype Secrets = NoSecrets | SecretRef(name: string, namespace: string) | BadSecrets

  datatype Class = Class(driver: string, policy: DeletionPolicy, secrets: Secrets)

  /**
   What is looked up besides the objects: the classes; for each claim the volume it is bound to, both
   ways, with its CSI handle if it has one; the group snapshot named by the group content with a
   handle; the clock.
   */
  datatype Lookup = Lookup(
    classes: map<string, Class>,
    volumes: map<Key, Option<string>>,
    groupOf: map<string, string>,
    now: int)

  /** What becomes of an API call: Lost means it was applied and the caller saw an error. */
  datatype Fate = Fine | Rejected | Lost

  /**
   The world, the worlds it went through, the steps between them, and the fates of the calls to come
   (none left: all fine).
   */
  datatype Ctx = Ctx(w: World, past: seq<World>, made: seq<CommonStep>, fates: seq<Fate>)

  datatype Outcome = Outcome(ctx: Ctx, ok: bool)

  /** Every step was enabled where it was made, and led on to the next world. */
  ghost predicate Explained(past: seq<World>, made: seq<CommonStep>, w: World)
    decreases |made|
  {
    if |past| != |made| || |made| == 0 then past == [] && made == []
    else
      var v, step := past[|past| - 1], made[|made| - 1];
      CommonEnabled(v, step) && w == ApplyCommon(v, step) && Explained(past[..|past| - 1], made[..|made| - 1], v)
  }

  /** From `c` a pass went on to `d` by enabled steps only. */
  ghost predicate Follows(c: Ctx, d: Ctx) {
    c.past + [c.w] <= d.past + [d.w] && c.made <= d.made && (Explained(c.past, c.made, c.w) ==> Explained(d.past, d.made, d.w))
  }

  lemma StepIsExplained(c: Ctx, step: CommonStep)
    requires CommonEnabled(c.w, step) && Explained(c.past, c.made, c.w)
    ensures Explained(c.past + [c.w], c.made + [step], ApplyCommon(c.w, step))
  {
    var past, made := c.past + [c.w], c.made + [step];
    assert past[..|past| - 1] == c.past && made[..|made| - 1] == c.made;
  }

  function Make(c: Ctx, step: CommonStep): (r: Ctx)
    requires CommonEnabled(c.w, step)
    ensures Follows(c, r)
  {
    assert Explained(c.past, c.made, c.w) ==> Explained(c.past + [c.w], c.made + [step], ApplyCommon(c.w, step)) by {
      if Explained(c.past, c.made, c.w) {
        StepIsExplained(c, step);
      }
    }
    Ctx(ApplyCommon(c.w, step), c.past + [c.w], c.made + [step], c.fates)
  }

  /** The call is refused by fate, or because the surroundings do not let the write happen. */
  function Call(c: Ctx, step: CommonStep): (r: Outcome)
    requires CommonMakes(c.w, step)
    ensures Follows(c, r.ctx)
    ensures r.ctx.w == c.w || r.ctx.w == ApplyCommon(c.w, step)
    ensures r.ok ==> r.ctx.w == ApplyCommon(c.w, step)
  {
    if c.fates == [] then
      if NameIsFree(c.w, step) then Outcome(Make(c, step), true) else Outcome(c, false)
    else if c.fates[0] == Rejected || !NameIsFree(c.w, step) then Outcome(c.(fates := c.fates[1..]), false)
    else Outcome(Make(c.(fates := c.fates[1..]), step), c.fates[0] == Fine)
  }

  /** `s` is the snapshot stored under `key`, up to finalizers this very pass may have added. */
  predicate Current(w: World, key: Key, s: Snapshot) {
    key in w.snapshots && w.snapshots[key].(finalizers := s.finalizers) == s
  }

  // ---- Errors on the snapshot ----

  function WithError(st: Option<SnapshotStatus>, now: int, notReady: bool, m: Message): SnapshotStatus {
    var p := if st.Some? then st.value else EMPTY_SNAPSHOT_STATUS;
    p.(error := Some(StatusError(Some(now), m)), ready := if notReady then Some(false) else p.ready)
  }

  /** The update carries the version of the copy `s`, so a copy out of date is refused. */
  function UpdateErrorStatus(c: Ctx, l: Lookup, key: Key, s: Snapshot, notReady: bool, m: Message): (r: Outcome)
    ensures Follows(c, r.ctx)
    ensures r.ctx.w == c.w.(snapshots := r.ctx.w.snapshots, log := r.ctx.w.log)
  {
    if s.status.Some? && s.status.value.error.Some? && s.status.value.error.value.message == m then Outcome(c, true)
    else if key in c.w.snapshots && c.w.snapshots[key] == s then
      Call(c, WriteSnapshotStatus(key, WithError(s.status, l.now, notReady, m)))
    else Outcome(c, false)
  }

  function Fail(c: Ctx, l: Lookup, key: Key, s: Snapshot, notReady: bool, m: Message): (r: Outcome)
    ensures Follows(c, r.ctx)
  {
    Outcome(UpdateErrorStatus(c, l, key, s, notReady, m).ctx, false)
  }

  // ---- Finding the content ----

  datatype Found = Missing | Found(name: string) | Unfit(message: Message) | NoName

  /** The content a pre-provisioned snapshot asks for. */
  function FindPreprovisioned(w: World, key: Key, s: Snapshot): (r: Found)
    requires s.contentName.Some?
    ensures r.Found? ==>
              && r.name in w.contents && w.contents[r.name].snapshotHandle.Some?
              && w.contents[r.name].refKey == key && w.contents[r.name].refUid in {"", s.uid}
  {
    var n := s.contentName.value;
    if n == "" then NoName
    else if n !in w.contents then Missing
    else if w.contents[n].snapshotHandle.None? then Unfit(ContentMismatch)
    else if w.contents[n].refKey != key || (w.contents[n].refUid != "" && w.contents[n].refUid != s.uid) then Unfit(ContentMisbound)
    else Found(n)
  }

  /** The content a dynamic snapshot was given. */
  function FindDynamic(w: World, key: Key, s: Snapshot): (r: Found)
    ensures r.Missing? <==> DynamicContentName(s.uid) !in w.contents
    ensures r.Found? ==>
              && r.name == DynamicContentName(s.uid) && r.name in w.contents
              && w.contents[r.name].volumeHandle.Some? && RefersTo(w.contents[r.name], key, s)
  {
    var n := DynamicContentName(s.uid);
    if n !in w.contents then Missing
    else if w.contents[n].volumeHandle.None? then Unfit(ContentMismatch)
    else if !RefersTo(w.contents[n], key, s) then Unfit(ContentMisbound)
    else Found(n)
  }

  // ---- The source claim ----

  ghost function RemoveClaimProtection(c: Ctx, key: Key, s: Snapshot, skip: Option<Key>): (r: Outcome)
    ensures Follows(c, r.ctx)
    ensures r.ctx.w == c.w.(claims := r.ctx.w.claims)
  {
    if s.claimName.None? || s.claimName.value == "" then Outcome(c, true)
    else
      var ck := Key(key.namespace, s.claimName.value);
      if ck !in c.w.claims || ClaimAsSource !in c.w.claims[ck].finalizers || ClaimInUse(c.w, ck, skip) then Outcome(c, true)
      else Call(c, RemoveClaimFinalizer(ck, skip))
  }

  function ProtectClaim(c: Ctx, key: Key, s: Snapshot): (r: Outcome)
    requires s.claimName.Some?
    ensures Follows(c, r.ctx)
    ensures r.ctx.w == c.w.(claims := r.ctx.w.claims)
    ensures r.ok ==> var ck := Key(key.namespace, s.claimName.value);
                     ck in r.ctx.w.claims && ClaimAsSource in r.ctx.w.claims[ck].finalizers
  {
    var ck := Key(key.namespace, s.claimName.value);
    if s.claimName.value == "" || ck !in c.w.claims then Outcome(c, false)
    else if ClaimAsSource in c.w.claims[ck].finalizers then Outcome(c, true)
    else if c.w.claims[ck].deleted then Outcome(c, false)
    else Call(c, AddClaimFinalizer(ck))
  }

  // ---- Creating the content ----

  function SecretAnnotations(s: Secrets): Annotations {
    if s.SecretRef? then map[DeletionSecretName := s.name, DeletionSecretNamespace := s.namespace] else map[]
  }

  /** Policy, driver and secrets are those of the class. */
  predicate ByClass(c: Content, l: Lookup) {
    && c.className.Some? && c.className.value in l.classes
    && c.policy == l.classes[c.className.value].policy
    && c.driver == l.classes[c.className.value].driver
    && match l.classes[c.className.value].secrets
       case NoSecrets => c.annotations == map[]
       case SecretRef(name, namespace) =>
         && c.annotations.Keys == {DeletionSecretName, DeletionSecretNamespace}
         && c.annotations[DeletionSecretName] == name && c.annotations[DeletionSecretNamespace] == namespace
       case BadSecrets => false
  }

  /** A content made for the snapshot, after its class, from the volume its claim is bound to. */
  predicate AsRequested(c: Content, claims: map<Key, Claim>, l: Lookup, key: Key, s: Snapshot) {
    && RefersTo(c, key, s) && c.className == s.className && ByClass(c, l) && s.claimName.Some?
    && var ck := Key(key.namespace, s.claimName.value);
    && ck in claims && claims[ck].phase == Bound && ck in l.volumes
    && c.volumeHandle.Some? && c.volumeHandle == l.volumes[ck] && c.snapshotHandle.None?
    && !c.deleted && c.finalizers == [] && c.status.None?
  }

  /** The content to create, if class, claim and volume allow it. */
  function NewContent(w: World, l: Lookup, key: Key, s: Snapshot): (r: Option<Content>)
    ensures r.Some? ==> RefersTo(r.value, key, s) && r.value.volumeHandle.Some? && r.value.snapshotHandle.None?
                        && r.value.className.Some? && !r.value.deleted && r.value.finalizers == []
                        && OnlySecretAnnotations(r.value.annotations, false) && r.value.status.None?
    ensures r.Some? ==> AsRequested(r.value, w.claims, l, key, s)
  {
    if s.className.None? || s.className.value !in l.classes || s.claimName.None? then None
    else
      var class_ := l.classes[s.className.value];
      var ck := Key(key.namespace, s.claimName.value);
      if ck !in w.claims || w.claims[ck].phase != Bound || ck !in l.volumes || class_.secrets.BadSecrets? || l.volumes[ck].None? then None
      else
        Some(Content(key, s.uid, l.volumes[ck], None, class_.policy, class_.driver, s.className, false, [],
                     SecretAnnotations(class_.secrets), None))
  }

  function CreateSnapshotContent(c: Ctx, l: Lookup, key: Key, s: Snapshot): (r: Outcome)
    requires Current(c.w, key, s) && !s.deleted && s.parent.None? && s.contentName.None? && s.claimName.Some?
    requires DynamicContentName(s.uid) !in c.w.contents
    ensures Follows(c, r.ctx)
    ensures Current(r.ctx.w, key, s)
    ensures r.ok ==> DynamicContentName(s.uid) in r.ctx.w.contents
                     && AsRequested(r.ctx.w.contents[DynamicContentName(s.uid)], r.ctx.w.claims, l, key, s)
  {
    var p := ProtectClaim(c, key, s);
    if !p.ok then p
    else
      var content := NewContent(p.ctx.w, l, key, s);
      if content.None? then Outcome(p.ctx, false)
      else Call(p.ctx, CreateContent(key, content.value))
  }

  // ---- Status ----

  /** The group snapshot to name in the status: empty outside groups, None if the group content is unknown. */
  function GroupNameFor(l: Lookup, st: Option<ContentStatus>): Option<string> {
    if st.None? || st.value.groupHandle.None? then Some("")
    else if st.value.groupHandle.value in l.groupOf then Some(l.groupOf[st.value.groupHandle.value])
    else None
  }

  function UpdateStatus(c: Ctx, l: Lookup, key: Key, n: string, st: Option<ContentStatus>): (r: Outcome)
    ensures Follows(c, r.ctx)
    ensures r.ctx.w == c.w.(snapshots := r.ctx.w.snapshots, log := r.ctx.w.log)
  {
    if GroupNameFor(l, st).None? || key !in c.w.snapshots then Outcome(c, false)
    else
      var m := MirrorStatus(c.w.snapshots[key].status, n, st, GroupNameFor(l, st).value);
      if m.updated then Call(c, WriteSnapshotStatus(key, m.status)) else Outcome(c, true)
  }

  /** With the error status the callers write when the update fails. */
  function UpdateStatusOrFail(c: Ctx, l: Lookup, key: Key, s: Snapshot, n: string, st: Option<ContentStatus>, notReady: bool): (r: Outcome)
    ensures Follows(c, r.ctx)
  {
    var u := UpdateStatus(c, l, key, n, st);
    if u.ok then u else Fail(u.ctx, l, key, s, notReady, StatusUpdateFailed)
  }

  // ---- A snapshot that is not ready ----

  function SyncPreprovisioned(c: Ctx, l: Lookup, key: Key, s: Snapshot): (r: Outcome)
    requires Current(c.w, key, s) && !s.deleted && s.contentName.Some?
    ensures Follows(c, r.ctx)
  {
    match FindPreprovisioned(c.w, key, s)
    case NoName => Outcome(c, false)
    case Missing => Fail(c, l, key, s, true, ContentMissing)
    case Unfit(m) => Fail(c, l, key, s, true, m)
    case Found(n) =>
      var content := c.w.contents[n];
      if content.refUid != "" && content.className.Some? then UpdateStatusOrFail(c, l, key, s, n, content.status, false)
      else
        var b := Call(c, BindContent(n, key, s.className));
        if !b.ok then Fail(b.ctx, l, key, s, true, BindFailed)
        else UpdateStatusOrFail(b.ctx, l, key, s, n, content.status, false)
  }

  function SyncMember(c: Ctx, l: Lookup, key: Key, s: Snapshot): (r: Outcome)
    ensures Follows(c, r.ctx)
  {
    if s.status.None? || s.status.value.bound.None? || s.status.value.bound.value !in c.w.contents then Outcome(c, false)
    else
      var n := s.status.value.bound.value;
      UpdateStatusOrFail(c, l, key, s, n, c.w.contents[n].status, false)
  }

  function SyncDynamic(c: Ctx, l: Lookup, key: Key, s: Snapshot): (r: Outcome)
    requires Current(c.w, key, s) && !s.deleted && s.contentName.None? && s.parent.None?
    ensures Follows(c, r.ctx)
  {
    var found := FindDynamic(c.w, key, s);
    if found.Unfit? then Fail(c, l, key, s, true, found.message)
    else if found.Found? then
      if c.w.contents[found.name].snapshotHandle.Some? then Fail(c, l, key, s, true, HandleSet)
      else
        // the copy used from here on is read back from the server
        UpdateStatusOrFail(c, l, key, c.w.snapshots[key], found.name, c.w.contents[found.name].status, true)
    else if s.claimName.None? then Fail(c, l, key, s, true, SourceInvalid)
    else
      var created := CreateSnapshotContent(c, l, key, s);
      if !created.ok then Fail(created.ctx, l, key, s, true, CreationFailed)
      else UpdateStatusOrFail(created.ctx, l, key, s, DynamicContentName(s.uid), None, false)
  }

  function SyncUnready(c: Ctx, l: Lookup, key: Key, s: Snapshot): (r: Outcome)
    requires Current(c.w, key, s) && !s.deleted
    ensures Follows(c, r.ctx)
  {
    if s.contentName.Some? then SyncPreprovisioned(c, l, key, s)
    else if s.parent.Some? then SyncMember(c, l, key, s)
    else SyncDynamic(c, l, key, s)
  }

  // ---- A snapshot that is ready ----

  function SyncReady(c: Ctx, l: Lookup, key: Key, s: Snapshot): (r: Outcome)
    requires Current(c.w, key, s) && IsSnapshotReady(s) && IsBoundNameSet(s)
    ensures Follows(c, r.ctx)
  {
    var n := s.status.value.bound.value;
    if n !in c.w.contents then UpdateErrorStatus(c, l, key, s, true, ContentMissing)
    else if !RefersTo(c.w.contents[n], key, s) then UpdateErrorStatus(c, l, key, s, true, ContentMisbound)
    else if s.parent.None? && s.status.value.groupName.Some? && s.status.value.groupName.value != "" then
      var parent := s.status.value.groupName.value;
      if Key(key.namespace, parent) !in c.w.groups || c.w.snapshots[key] != s then Outcome(c, false)
      else Call(c, AdoptSnapshot(key, parent))
    else Outcome(c, true)
  }

  // ---- Finalizers of the snapshot ----

  /** With an error, the error is recorded on the snapshot; otherwise the snapshot stays current. */
  function AddFinalizers(c: Ctx, l: Lookup, key: Key, s: Snapshot): (r: Outcome)
    requires key in c.w.snapshots && c.w.snapshots[key] == s && !s.deleted
    ensures Follows(c, r.ctx)
    ensures r.ok ==> Current(r.ctx.w, key, s)
  {
    var found := if s.contentName.Some? then FindPreprovisioned(c.w, key, s) else FindDynamic(c.w, key, s);
    if found.NoName? then Outcome(c, false)
    else if found.Unfit? then Fail(c, l, key, s, true, found.message)
    else
      var source := NeedsSourceFinalizer(s);
      var bound := found.Found? && NeedsBoundFinalizer(s) && c.w.contents[found.name].policy == Delete;
      if source || bound then Call(c, AddSnapshotFinalizers(key, source, bound)) else Outcome(c, true)
  }

  // ---- Deletion ----

  /** A claim is still being filled from the snapshot. */
  ghost predicate IsBeingRestored(w: World, key: Key) {
    exists ck :: ck in w.claims && RestoresFrom(ck, w.claims[ck], key)
  }

  predicate RestoresFrom(ck: Key, claim: Claim, key: Key) {
    ck.namespace == key.namespace && claim.restores == Some(key.name) && claim.phase == Pending
  }

  function MarkBeingDeleted(c: Ctx, n: string, key: Key): (r: Outcome)
    requires CommonMakes(c.w, SetBeingDeleted(n, key))
    ensures Follows(c, r.ctx)
  {
    if BeingDeleted in c.w.contents[n].annotations then Outcome(c, true) else Call(c, SetBeingDeleted(n, key))
  }

  ghost function RemoveFinalizers(c: Ctx, key: Key, s: Snapshot, bound: bool, group: bool): (r: Outcome)
    requires key in c.w.snapshots && c.w.snapshots[key] == s && s.deleted
    requires bound ==> !HoldsContent(c.w, key, s)
    requires group ==> s.status.Some? && s.status.value.groupName.Some?
                       && Key(key.namespace, s.status.value.groupName.value) !in c.w.groups
    ensures Follows(c, r.ctx)
  {
    var p := RemoveClaimProtection(c, key, s, Some(key));
    if !p.ok then p else Call(p.ctx, RemoveSnapshotFinalizers(key, true, bound, group))
  }

  /** The content points back: it is marked, deleted if its policy says so, and only then does the snapshot give way. */
  ghost function ReleaseContent(c: Ctx, key: Key, s: Snapshot, n: string, group: bool): (r: Outcome)
    requires key in c.w.snapshots && c.w.snapshots[key] == s && s.deleted
    requires n == DeletionContentName(s) && n in c.w.contents && RefersTo(c.w.contents[n], key, s)
    requires group ==> s.status.Some? && s.status.value.groupName.Some?
                       && Key(key.namespace, s.status.value.groupName.value) !in c.w.groups
    ensures Follows(c, r.ctx)
  {
    var mark := MarkBeingDeleted(c, n, key);
    if !mark.ok then mark
    else if c.w.contents[n].policy == Retain then RemoveFinalizers(mark.ctx, key, s, true, group)
    else if n !in mark.ctx.w.contents then Outcome(mark.ctx, false)
    else
      var del := Call(mark.ctx, DeleteContent(n));
      if !del.ok then del else RemoveFinalizers(del.ctx, key, s, false, group)
  }

  ghost function SyncDeleted(c: Ctx, key: Key, s: Snapshot): (r: Outcome)
    requires key in c.w.snapshots && c.w.snapshots[key] == s && s.deleted
    ensures Follows(c, r.ctx)
  {
    var n := DeletionContentName(s);
    var pointsBack := n in c.w.contents && RefersTo(c.w.contents[n], key, s);
    var group := if s.status.Some? then s.status.value.groupName else None;
    if !IsDeletionCandidate(s) then Outcome(c, true)
    else if pointsBack && IsBeingRestored(c.w, key) then Outcome(c, true)
    else if group.Some? && Key(key.namespace, group.value) in c.w.groups then Outcome(c, false)
    else if pointsBack then ReleaseContent(c, key, s, n, group.Some?)
    else RemoveFinalizers(c, key, s, true, group.Some?)
  }

  // ---- The passes ----

  ghost function SyncSnapshot(c: Ctx, l: Lookup, key: Key): (r: Outcome)
    requires key in c.w.snapshots
    ensures Follows(c, r.ctx)
  {
    var s := c.w.snapshots[key];
    var c1 := RemoveClaimProtection(c, key, s, None).ctx;
    if s.deleted then SyncDeleted(c1, key, s)
    else if s.claimName.Some? == s.contentName.Some? then Fail(c1, l, key, s, true, SourceInvalid)
    else
      var f := AddFinalizers(c1, l, key, s);
      if !f.ok then f
      else if !IsSnapshotReady(s) || !IsBoundNameSet(s) then SyncUnready(f.ctx, l, key, s)
      else SyncReady(f.ctx, l, key, s)
  }

  function SyncContent(c: Ctx, n: string): (r: Outcome)
    requires n in c.w.contents
    ensures Follows(c, r.ctx)
  {
    var content := c.w.contents[n];
    if !HasOneSource(content) then Outcome(c, false)
    else if content.refUid == "" then Outcome(c, true)
    else if NeedsContentFinalizer(content) then Call(c, AddContentFinalizer(n))
    else
      var key := content.refKey;
      if key in c.w.snapshots && c.w.snapshots[key].uid == content.refUid && IsDeletionCandidate(c.w.snapshots[key])
      then MarkBeingDeleted(c, n, key)
      else Outcome(c, true)
  }

  /** Readiness is compared by address, so that any two recorded values count as different. */
  predicate NeedsStatusUpdate(s: Snapshot, c: Content) {
    if c.status.None? then false
    else if s.status.None? then true
    else
      var have, want := s.status.value, c.status.value;
      || have.bound.None?
      || (have.created.None? && want.created.Some?)
      || (have.ready.None? && want.ready.Some?)
      || (have.ready.Some? && want.ready.Some?)
      || (have.size.None? && want.size.Some?)
      || (have.size == Some(0) && want.size.Some? && want.size.value > 0)
  }

  /** A pass over the content `n` asks for a pass over its snapshot. */
  predicate Enqueues(w: World, n: string)
    requires n in w.contents
  {
    var c := w.contents[n];
    && HasOneSource(c) && c.refUid != "" && !NeedsContentFinalizer(c)
    && c.refKey in w.snapshots && w.snapshots[c.refKey].uid == c.refUid && NeedsStatusUpdate(w.snapshots[c.refKey], c)
  }

  /** The gate in front of a snapshot pass: its class must exist, unless the snapshot is on its way out. */
  ghost function SyncSnapshotByKey(c: Ctx, l: Lookup, key: Key): (r: Outcome)
    requires key in c.w.snapshots
    ensures Follows(c, r.ctx)
  {
    var s := c.w.snapshots[key];
    if s.className.Some? && s.className.value !in l.classes then
      var e := UpdateErrorStatus(c, l, key, s, false, ClassMissing);
      // once the error is stored, the copy in hand is old and is not synced
      if !s.deleted then Outcome(e.ctx, false)
      else if key in e.ctx.w.snapshots && e.ctx.w.snapshots[key] == s then SyncSnapshot(e.ctx, l, key)
      else Outcome(e.ctx, true)
    else if s.className.None? && s.contentName.None? && s.parent.None? then
      Outcome(UpdateErrorStatus(c, l, key, s, false, ClassMissing).ctx, false)
    else SyncSnapshot(c, l, key)
  }

  // ---- A pass is part of a run ----

  /** The steps of a pass as steps of the cluster. */
  function AsSteps(made: seq<CommonStep>): seq<Cluster.Step> {
    seq(|made|, i requires 0 <= i < |made| => Cluster.Common(made[i]))
  }

  lemma {:induction false} ExplainedAt(past: seq<World>, made: seq<CommonStep>, w: World, i: nat)
    requires Explained(past, made, w) && i < |made|
    ensures |past| == |made| && CommonEnabled(past[i], made[i]) && (past + [w])[i + 1] == ApplyCommon(past[i], made[i])
    decreases |made|
  {
    if i < |made| - 1 {
      ExplainedAt(past[..|past| - 1], made[..|made| - 1], past[|past| - 1], i);
    }
  }

  /** The steps of the pass, one by one, seen as steps of the cluster. */
  lemma PassStep(d: Ctx, i: nat)
    requires Explained(d.past, d.made, d.w) && i < |d.made|
    ensures |d.past| == |d.made| && Enabled(d.past[i], AsSteps(d.made)[i])
    ensures (d.past + [d.w])[i + 1] == Apply(d.past[i], AsSteps(d.made)[i])
  {
    ExplainedAt(d.past, d.made, d.w, i);
  }

  /** Whatever becomes of its calls, a pass begun in a reachable world goes through reachable worlds only. */
  lemma PassExtendsRun(ws: seq<World>, steps: seq<Cluster.Step>, d: Ctx)
    requires IsRun(ws, steps) && Explained(d.past, d.made, d.w) && (d.past + [d.w])[0] == ws[|ws| - 1]
    ensures IsRun(ws[..|ws| - 1] + d.past + [d.w], steps + AsSteps(d.made))
  {
    var vs, ts := ws[..|ws| - 1] + d.past + [d.w], steps + AsSteps(d.made);
    var m := |steps|;
    ExplainedLength(d);
    assert forall i | 0 <= i <= m :: vs[i] == ws[i];
    assert forall i | 0 <= i <= |d.made| :: vs[m + i] == (d.past + [d.w])[i];
    forall i | 0 <= i < |ts| ensures Enabled(vs[i], ts[i]) && vs[i + 1] == Apply(vs[i], ts[i]) {
      if i >= m {
        PassStep(d, i - m);
      }
    }
  }

  lemma ExplainedLength(d: Ctx)
    requires Explained(d.past, d.made, d.w)
    ensures |d.past| == |d.made|
  {}

  /** The ghost of a pass: where it can end when it begins in `w`. */
  ghost function Start(w: World, fates: seq<Fate>): Ctx {
    Ctx(w, [], [], fates)
  }

  lemma SnapshotPassIsRun(ws: seq<World>, steps: seq<Cluster.Step>, fates: seq<Fate>, l: Lookup, key: Key)
    requires IsRun(ws, steps) && key in ws[|ws| - 1].snapshots
    ensures var d := SyncSnapshotByKey(Start(ws[|ws| - 1], fates), l, key).ctx;
            IsRun(ws[..|ws| - 1] + d.past + [d.w], steps + AsSteps(d.made))
  {
    var c := Start(ws[|ws| - 1], fates);
    var d := SyncSnapshotByKey(c, l, key).ctx;
    assert Explained(c.past, c.made, c.w);
    PassExtendsRun(ws, steps, d);
  }

  lemma ContentPassIsRun(ws: seq<World>, steps: seq<Cluster.Step>, fates: seq<Fate>, n: string)
    requires IsRun(ws, steps) && n in ws[|ws| - 1].contents
    ensures var d := SyncContent(Start(ws[|ws| - 1], fates), n).ctx;
            IsRun(ws[..|ws| - 1] + d.past + [d.w], steps + AsSteps(d.made))
  {
    var c := Start(ws[|ws| - 1], fates);
    var d := SyncContent(c, n).ctx;
    assert Explained(c.past, c.made, c.w);
    PassExtendsRun(ws, steps, d);
  }
}
