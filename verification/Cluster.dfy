/**
 The shared state of a cluster and the single steps it moves by: one API write of
 the common controller, one call of a sidecar pass, one act of a user, one move of
 the driver. `Enabled` says when the code (or the user, or the driver contract)
 can make a step; `Apply` says what the step does.
 */
module Cluster {
  import opened Objects
  import opened Sidecar
  import opened Driver

  datatype World = World(
    prefix: string,
    contents: map<string, Content>,
    snapshots: map<Key, Snapshot>,
    claims: map<Key, Claim>,
    groups: set<Key>,
    // The storage system: each snapshot by handle with the name it was created under
    // (None when it did not come from CreateSnapshot), and the names whose creation
    // was never answered and may still succeed.
    physical: map<string, Option<string>>,
    pending: set<string>,
    // Sidecar passes under way, by content name.
    passes: map<string, Pc>,
    log: History)

  /**
   What happened so far: every UID handed out, with the snapshot it was handed out for;
   UIDs of snapshots given a deletion timestamp;
   UIDs a dynamic content was created for; UIDs whose Retain content is gone; UIDs whose
   dynamic content had DeleteSnapshot sent; UIDs of snapshots that were ready; UIDs
   created by a group fan-out; handles named by administrators or once deleted, which the
   driver does not hand out again; UIDs given the bound finalizer, with the content name
   they had then.
   */
  datatype History = History(
    keyOf: map<string, Key>,
    condemned: set<string>,
    provisioned: set<string>,
    released: set<string>,
    destroyed: set<string>,
    everReady: set<string>,
    memberUids: set<string>,
    offLimits: set<string>,
    boundTo: map<string, string>)

  /** API writes of the common controller. */
  datatype CommonStep =
    | AddContentFinalizer(n: string)
    | SetBeingDeleted(n: string, key: Key)
    | DeleteContent(n: string)
    | CreateContent(key: Key, content: Content)
    | BindContent(n: string, key: Key, className: Option<string>)
    | AddSnapshotFinalizers(key: Key, source: bool, bound: bool)
    | WriteSnapshotStatus(key: Key, status: SnapshotStatus)
    | AdoptSnapshot(key: Key, parent: string)
    | RemoveSnapshotFinalizers(key: Key, source: bool, bound: bool, group: bool)
    | AddClaimFinalizer(claim: Key)
    | RemoveClaimFinalizer(claim: Key, skip: Option<Key>)

  /** API writes of the group fan-out. */
  datatype FanStep =
    | CreateMemberContent(n: string, content: Content)
    | CreateMemberSnapshot(key: Key, snapshot: Snapshot)
    | BindMemberContent(n: string, uid: string)
    | BindMemberSnapshot(key: Key, n: string)
    | WriteMemberStatus(n: string, contentStatus: ContentStatus)

  /** Acts of users and administrators. */
  datatype UserStep =
    | CreateSnapshotObject(key: Key, snapshot: Snapshot)
    | DeleteSnapshotObject(key: Key)
    | CreateContentObject(n: string, content: Content)
    | DeleteContentObject(n: string)
    | CreateClaim(claim: Key, object: Claim)
    | DeleteClaim(claim: Key)
    | SetClaimPhase(claim: Key, phase: ClaimPhase)
    | CreateGroup(group: Key)
    | RemoveGroup(group: Key)

  datatype Step =
    | Common(common: CommonStep)
    | Fan(fan: FanStep)
    | User(user: UserStep)
    | BeginPass(n: string, inp: Inputs)
    | AdvancePass(n: string, answer: Answer)
    | Crash
    | FinishCreation(name: string, handle: string)

  // ---- Reading the world ----

  ghost predicate Holder(w: World, h: string, name: string) {
    h in w.physical && w.physical[h] == Some(name)
  }

  /** The driver holds a snapshot under the name for `uid`, or may still produce one. */
  ghost predicate Present(w: World, uid: string) {
    SnapshotName(w.prefix, uid) in w.pending || exists h :: Holder(w, h, SnapshotName(w.prefix, uid))
  }

  function StoredContent(w: World, n: string): Option<Content> {
    if n in w.contents then Some(w.contents[n]) else None
  }

  /** The deleted snapshot still holds a Delete-policy content that points back at it. */
  predicate HoldsContent(w: World, key: Key, s: Snapshot) {
    var n := DeletionContentName(s);
    n in w.contents && RefersTo(w.contents[n], key, s) && w.contents[n].policy == Delete
  }

  /** The write-once fields of a snapshot status survive. */
  predicate StatusGrows(prior: Option<SnapshotStatus>, next: SnapshotStatus) {
    prior.Some? ==>
      && (prior.value.bound.Some? ==> next.bound == prior.value.bound)
      && (prior.value.groupName.Some? ==> next.groupName == prior.value.groupName)
  }

  /** Some unready snapshot of the namespace, other than a deleted `skip`, is taken from the claim. */
  ghost predicate ClaimInUse(w: World, claim: Key, skip: Option<Key>) {
    exists k :: k in w.snapshots && UsesClaim(k, w.snapshots[k], claim) && !(Some(k) == skip && w.snapshots[k].deleted)
  }

  predicate UsesClaim(k: Key, s: Snapshot, claim: Key) {
    k.namespace == claim.namespace && s.claimName == Some(claim.name) && !IsSnapshotReady(s)
  }

  predicate OnlySecretAnnotations(a: Annotations, member: bool) {
    forall k <- a :: k.DeletionSecretName? || k.DeletionSecretNamespace? || (member && k.GroupHandle?)
  }

  // ---- When a step can happen ----

  ghost predicate Enabled(w: World, step: Step) {
    match step
    case Common(c) => CommonEnabled(w, c)
    case Fan(f) => FanEnabled(w, f)
    case User(u) => UserEnabled(w, u)
    case BeginPass(n, _) => n in w.contents && n !in w.passes && HasOneSource(w.contents[n])
    case AdvancePass(n, a) =>
      && n in w.passes
      && Fits(w.passes[n], StoredContent(w, n), a)
      && DriverMay(w, w.passes[n], a)
    case Crash => true
    case FinishCreation(name, h) => name in w.pending && h !in w.log.offLimits && MayCreate(w, name, h)
  }

  /** The code makes the write, and the surroundings let it happen. */
  ghost predicate CommonEnabled(w: World, step: CommonStep) {
    CommonMakes(w, step) && NameIsFree(w, step)
  }

  /** A name is not given out again while a pass over its old holder is under way. */
  predicate NameIsFree(w: World, step: CommonStep) {
    step.CreateContent? ==> DynamicContentName(step.content.refUid) !in w.passes
  }

  predicate FanNameIsFree(w: World, step: FanStep) {
    step.CreateMemberContent? ==> step.n !in w.passes
  }

  ghost predicate CommonMakes(w: World, step: CommonStep) {
    match step
    case AddContentFinalizer(n) => n in w.contents && NeedsContentFinalizer(w.contents[n])
    case SetBeingDeleted(n, key) =>
      n in w.contents && key in w.snapshots && w.snapshots[key].deleted && w.contents[n].refUid == w.snapshots[key].uid
    case DeleteContent(n) => n in w.contents
    case CreateContent(key, c) =>
      && key in w.snapshots
      && var s := w.snapshots[key];
      && !s.deleted && s.parent.None? && s.contentName.None? && s.claimName.Some?
      && DynamicContentName(s.uid) !in w.contents
      && Key(key.namespace, s.claimName.value) in w.claims
      && ClaimAsSource in w.claims[Key(key.namespace, s.claimName.value)].finalizers
      && RefersTo(c, key, s) && c.volumeHandle.Some? && c.snapshotHandle.None? && c.className.Some?
      && !c.deleted && c.finalizers == [] && OnlySecretAnnotations(c.annotations, false) && c.status.None?
    case BindContent(n, key, _) =>
      && n in w.contents && key in w.snapshots
      && w.contents[n].snapshotHandle.Some? && w.contents[n].refKey == key
      && !w.snapshots[key].deleted && w.contents[n].refUid in {"", w.snapshots[key].uid}
    case AddSnapshotFinalizers(key, source, bound) =>
      && key in w.snapshots
      && var s := w.snapshots[key];
      && !s.deleted
      && (bound ==>
            && IsBoundNameSet(s)
            && (s.contentName.Some?
                || (StoredContent(w, DynamicContentName(s.uid)).Some?
                    && w.contents[DynamicContentName(s.uid)].volumeHandle.Some?
                    && RefersTo(w.contents[DynamicContentName(s.uid)], key, s))))
    case WriteSnapshotStatus(key, st) => key in w.snapshots && StatusGrows(w.snapshots[key].status, st)
    case AdoptSnapshot(key, parent) =>
      key in w.snapshots && w.snapshots[key].parent.None? && Key(key.namespace, parent) in w.groups
      && IsSnapshotReady(w.snapshots[key])
    case RemoveSnapshotFinalizers(key, _, bound, group) =>
      && key in w.snapshots
      && var s := w.snapshots[key];
      && s.deleted
      && (bound ==> !HoldsContent(w, key, s))
      && (group ==> s.status.Some? && s.status.value.groupName.Some?
                    && Key(key.namespace, s.status.value.groupName.value) !in w.groups)
    case AddClaimFinalizer(ck) => ck in w.claims && !w.claims[ck].deleted
    case RemoveClaimFinalizer(ck, skip) => ck in w.claims && !ClaimInUse(w, ck, skip)
  }

  predicate FanEnabled(w: World, step: FanStep) {
    FanMakes(w, step) && FanNameIsFree(w, step)
  }

  /** Contents of members are named after a digest in hexadecimal digits, never after a UID, which has dashes. */
  predicate DigestName(n: string) {
    CONTENT_PREFIX <= n && '-' !in n[|CONTENT_PREFIX|..]
  }

  predicate FanMakes(w: World, step: FanStep) {
    match step
    case CreateMemberContent(n, c) =>
      && n !in w.contents && DigestName(n)
      && IsGroupMember(c) && OnlySecretAnnotations(c.annotations, true)
      && c.volumeHandle.Some? && c.snapshotHandle.None? && c.refUid == ""
      && !c.deleted && c.finalizers == [] && c.status.None?
    case CreateMemberSnapshot(key, s) =>
      && key !in w.snapshots && '-' in s.uid && s.uid !in w.log.keyOf
      && !s.deleted && s.status.None? && s.finalizers == [SnapshotInGroup]
      && s.parent.Some? && s.contentName.None? && s.claimName.Some?
    case BindMemberContent(n, uid) => n in w.contents && IsGroupMember(w.contents[n]) && uid in w.log.memberUids
    case BindMemberSnapshot(key, n) =>
      && key in w.snapshots && w.snapshots[key].uid in w.log.memberUids
      && n in w.contents && RefersTo(w.contents[n], key, w.snapshots[key])
    case WriteMemberStatus(n, st) =>
      && n in w.contents && IsGroupMember(w.contents[n]) && st.handle.Some? && st.groupHandle.Some?
      && var key := w.contents[n].refKey;
      && key in w.snapshots && w.snapshots[key].status.Some? && w.snapshots[key].status.value.bound == Some(n)
  }

  predicate UserEnabled(w: World, step: UserStep) {
    match step
    case CreateSnapshotObject(key, s) =>
      && key !in w.snapshots && s.uid != "" && s.uid !in w.log.keyOf
      && !s.deleted && s.status.None? && s.parent.None? && (forall f <- s.finalizers :: f.OtherFinalizer?)
    case DeleteSnapshotObject(key) => key in w.snapshots
    case CreateContentObject(n, c) =>
      && n !in w.contents && n !in w.passes
      && c.snapshotHandle.Some? && c.volumeHandle.None? && !c.deleted && c.status.None?
      && (forall f <- c.finalizers :: f.OtherFinalizer?)
      && (forall k <- c.annotations :: k.OtherAnnotation?)
      && (c.refUid == "" || c.refUid !in w.log.condemned)
      && (c.snapshotHandle.value in w.physical ==> w.physical[c.snapshotHandle.value].None?)
    case DeleteContentObject(n) => n in w.contents
    case CreateClaim(ck, c) => ck !in w.claims && !c.deleted && (forall f <- c.finalizers :: f.OtherFinalizer?)
    case DeleteClaim(ck) => ck in w.claims
    case SetClaimPhase(ck, _) => ck in w.claims
    case CreateGroup(_) => true
    case RemoveGroup(_) => true
  }

  /** The driver contract: creation is idempotent by name, and an error after which it does not go on leaves nothing under the name. */
  ghost predicate DriverMay(w: World, pc: Pc, a: Answer) {
    pc.AtCreateSnapshot? ==>
      var name := SnapshotName(w.prefix, pc.copy.refUid);
      && (a.Created? ==> a.handle !in w.log.offLimits && MayCreate(w, name, a.handle))
      && (a.CreateFailed? && HasFailed(a.error) ==> forall h :: !Holder(w, h, name))
  }

  /** `h` is the snapshot the driver holds under `name`, or, if there is none, a handle not in use. */
  ghost predicate MayCreate(w: World, name: string, h: string) {
    && (forall g :: Holder(w, g, name) ==> g == h)
    && (h in w.physical ==> w.physical[h] == Some(name))
  }

  // ---- What a step does ----

  /** The API server keeps an object unless it is deleted and nothing protects it any more. */
  function StoreContent(m: map<string, Content>, n: string, c: Content): map<string, Content> {
    if c.deleted && c.finalizers == [] then m - {n} else m[n := c]
  }

  function StoreSnapshot(m: map<Key, Snapshot>, key: Key, s: Snapshot): map<Key, Snapshot> {
    if s.deleted && s.finalizers == [] then m - {key} else m[key := s]
  }

  function StoreClaim(m: map<Key, Claim>, key: Key, c: Claim): map<Key, Claim> {
    if c.deleted && c.finalizers == [] then m - {key} else m[key := c]
  }

  function NoteRelease(g: History, c: Content): History {
    if c.deleted && c.finalizers == [] && IsDynamic(c) && c.policy == Retain
    then g.(released := g.released + {c.refUid}) else g
  }

  function NoteReady(g: History, s: Snapshot): History {
    if IsSnapshotReady(s) then g.(everReady := g.everReady + {s.uid}) else g
  }

  function PutContent(w: World, n: string, c: Content): World {
    w.(contents := StoreContent(w.contents, n, c), log := NoteRelease(w.log, c))
  }

  function PutSnapshot(w: World, key: Key, s: Snapshot): World {
    w.(snapshots := StoreSnapshot(w.snapshots, key, s), log := NoteReady(w.log, s))
  }

  function PutClaim(w: World, ck: Key, c: Claim): World {
    w.(claims := StoreClaim(w.claims, ck, c))
  }

  function StorePass(m: map<string, Pc>, n: string, pc: Pc): map<string, Pc> {
    if pc.Done? then m - {n} else m[n := pc]
  }

  function NoteBound(g: History, s: Snapshot): History {
    if s.status.Some? && s.status.value.bound.Some?
    then g.(boundTo := g.boundTo[s.uid := s.status.value.bound.value]) else g
  }

  function Apply(w: World, step: Step): World
    requires Enabled(w, step)
  {
    match step
    case Common(c) => ApplyCommon(w, c)
    case Fan(f) => ApplyFan(w, f)
    case User(u) => ApplyUser(w, u)
    case BeginPass(n, inp) => w.(passes := StorePass(w.passes, n, Begin(w.contents[n], inp)))
    case AdvancePass(n, a) => Advance(w, n, w.passes[n], a)
    case Crash => w.(passes := map[])
    case FinishCreation(name, h) => w.(physical := w.physical[h := Some(name)])
  }

  function ApplyCommon(w: World, step: CommonStep): World
    requires CommonMakes(w, step)
  {
    match step
    case AddContentFinalizer(n) =>
      PutContent(w, n, w.contents[n].(finalizers := w.contents[n].finalizers + [ContentBound]))
    case SetBeingDeleted(n, _) =>
      PutContent(w, n, w.contents[n].(annotations := w.contents[n].annotations[BeingDeleted := "yes"]))
    case DeleteContent(n) => PutContent(w, n, w.contents[n].(deleted := true))
    case CreateContent(key, c) =>
      var uid := w.snapshots[key].uid;
      w.(contents := w.contents[DynamicContentName(uid) := c], log := w.log.(provisioned := w.log.provisioned + {uid}))
    case BindContent(n, key, className) =>
      PutContent(w, n, w.contents[n].(
        refUid := w.snapshots[key].uid,
        className := if className.Some? then className else w.contents[n].className))
    case AddSnapshotFinalizers(key, source, bound) =>
      var s := w.snapshots[key];
      var s' := s.(finalizers := s.finalizers
                                 + (if source then [SnapshotAsSource] else [])
                                 + (if bound then [SnapshotBound] else []));
      w.(snapshots := w.snapshots[key := s'], log := if bound then NoteBound(w.log, s) else w.log)
    case WriteSnapshotStatus(key, st) => PutSnapshot(w, key, w.snapshots[key].(status := Some(st)))
    case AdoptSnapshot(key, parent) => PutSnapshot(w, key, w.snapshots[key].(parent := Some(parent)))
    case RemoveSnapshotFinalizers(key, source, bound, group) =>
      PutSnapshot(w, key, StripFinalizers(w.snapshots[key], source, bound, group))
    case AddClaimFinalizer(ck) =>
      PutClaim(w, ck, w.claims[ck].(finalizers := w.claims[ck].finalizers + [ClaimAsSource]))
    case RemoveClaimFinalizer(ck, _) =>
      PutClaim(w, ck, w.claims[ck].(finalizers := Without(w.claims[ck].finalizers, ClaimAsSource)))
  }

  function ApplyFan(w: World, step: FanStep): World
    requires FanMakes(w, step)
  {
    match step
    case CreateMemberContent(n, c) => w.(contents := w.contents[n := c])
    case CreateMemberSnapshot(key, s) =>
      w.(snapshots := w.snapshots[key := s], log := w.log.(keyOf := w.log.keyOf[s.uid := key], memberUids := w.log.memberUids + {s.uid}))
    case BindMemberContent(n, uid) => PutContent(w, n, w.contents[n].(refUid := uid))
    case BindMemberSnapshot(key, n) =>
      PutSnapshot(w, key, w.snapshots[key].(status := Some(EMPTY_SNAPSHOT_STATUS.(bound := Some(n)))))
    case WriteMemberStatus(n, st) => PutContent(w, n, w.contents[n].(status := Some(st)))
  }

  function ApplyUser(w: World, step: UserStep): World
    requires UserEnabled(w, step)
  {
    match step
    case CreateSnapshotObject(key, s) => w.(snapshots := w.snapshots[key := s], log := w.log.(keyOf := w.log.keyOf[s.uid := key]))
    case DeleteSnapshotObject(key) =>
      w.(snapshots := StoreSnapshot(w.snapshots, key, w.snapshots[key].(deleted := true)),
         log := w.log.(condemned := w.log.condemned + {w.snapshots[key].uid}))
    case CreateContentObject(n, c) =>
      w.(contents := w.contents[n := c], log := w.log.(offLimits := w.log.offLimits + {c.snapshotHandle.value}))
    case DeleteContentObject(n) => PutContent(w, n, w.contents[n].(deleted := true))
    case CreateClaim(ck, c) => w.(claims := w.claims[ck := c])
    case DeleteClaim(ck) => PutClaim(w, ck, w.claims[ck].(deleted := true))
    case SetClaimPhase(ck, phase) => w.(claims := w.claims[ck := w.claims[ck].(phase := phase)])
    case CreateGroup(g) => w.(groups := w.groups + {g})
    case RemoveGroup(g) => w.(groups := w.groups - {g})
  }

  function StripFinalizers(s: Snapshot, source: bool, bound: bool, group: bool): Snapshot {
    var f1 := if source then Without(s.finalizers, SnapshotAsSource) else s.finalizers;
    var f2 := if bound then Without(f1, SnapshotBound) else f1;
    s.(finalizers := if group then Without(f2, SnapshotInGroup) else f2)
  }

  /** The effect of a call of a pass: on the server, on the storage system, on the pass itself. */
  function Advance(w: World, n: string, pc: Pc, a: Answer): World
    requires Fits(pc, StoredContent(w, n), a)
  {
    w.(contents := if n in w.contents then StoreContent(w.contents, n, Written(pc, w.contents[n], a)) else w.contents,
       physical := NextPhysical(w, pc, a),
       pending := NextPending(w, pc, a),
       passes := StorePass(w.passes, n, NextPc(w, n, pc, a)),
       log := NextLog(if n in w.contents then NoteRelease(w.log, Written(pc, w.contents[n], a)) else w.log, pc, a))
  }

  function NextPc(w: World, n: string, pc: Pc, a: Answer): Pc
    requires Fits(pc, StoredContent(w, n), a)
  {
    if n in w.contents then Continue(pc, Some(Written(pc, w.contents[n], a)), a) else Continue(pc, None, a)
  }

  function NextPhysical(w: World, pc: Pc, a: Answer): map<string, Option<string>> {
    if pc.AtCreateSnapshot? && a.Created? then w.physical[a.handle := Some(SnapshotName(w.prefix, pc.copy.refUid))]
    else if DeletesPhysically(pc, a) then w.physical - {RpcHandle(pc.copy).value}
    else w.physical
  }

  /** An answer settles the creation under the name, one way or the other; an error after which the driver may go on leaves it open. */
  function NextPending(w: World, pc: Pc, a: Answer): set<string> {
    if !pc.AtCreateSnapshot? then w.pending
    else
      var name := SnapshotName(w.prefix, pc.copy.refUid);
      if a.Created? || (a.CreateFailed? && HasFailed(a.error)) then w.pending - {name}
      else if a.CreateFailed? && MayGoOn(a.error) then w.pending + {name}
      else w.pending
  }

  function NextLog(g: History, pc: Pc, a: Answer): History {
    if pc.AtDeleteSnapshot? then
      g.(destroyed := if IsDynamic(pc.copy) then g.destroyed + {pc.copy.refUid} else g.destroyed,
         offLimits := if DeletesPhysically(pc, a) then g.offLimits + {RpcHandle(pc.copy).value} else g.offLimits)
    else g
  }

  predicate DeletesPhysically(pc: Pc, a: Answer) {
    pc.AtDeleteSnapshot? && RpcHandle(pc.copy).Some? && (a.SnapshotDeleted? || (a.DeleteFailed? && a.gone))
  }

  // ---- Runs ----

  const EMPTY_HISTORY := History(map[], {}, {}, {}, {}, {}, {}, {}, map[])

  predicate Initial(w: World) {
    && w.contents == map[] && w.snapshots == map[] && w.claims == map[] && w.groups == {}
    && w.pending == {} && w.passes == map[] && w.log == EMPTY_HISTORY
    && forall h <- w.physical :: w.physical[h].None?
  }

  /** `ws` are the worlds passed through and `steps` the steps between them. */
  ghost predicate IsRun(ws: seq<World>, steps: seq<Step>) {
    && |ws| == |steps| + 1
    && Initial(ws[0])
    && forall i | 0 <= i < |steps| :: Enabled(ws[i], steps[i]) && ws[i + 1] == Apply(ws[i], steps[i])
  }

  /** The step sends CreateSnapshot to the driver for the content `n`. */
  predicate SendsCreate(w: World, step: Step, n: string) {
    step.AdvancePass? && step.n == n && n in w.passes && w.passes[n].AtCreateSnapshot?
    && w.passes[n].copy.refUid != "" && w.passes[n].copy.volumeHandle.Some?
  }

  /** The step sends DeleteSnapshot to the driver for the content `n`. */
  predicate SendsDelete(w: World, step: Step, n: string) {
    step.AdvancePass? && step.n == n && n in w.passes && w.passes[n].AtDeleteSnapshot?
  }
}
