/**
 The sidecar's pass over one VolumeGroupSnapshotContent: cut at every call for the safety of
 whole runs, and as mutually recursive code whose nested sync is bounded.
 */
module GroupSidecar {
  import opened Objects
  import opened Sidecar
  import opened Driver

  // ---- The content ----

  datatype MemberInfo = MemberInfo(volumeHandle: string, snapshotHandle: string)

  datatype GroupStatus = GroupStatus(
    handle: Option<string>, ready: Option<bool>, created: Option<int>, error: Option<StatusError>, infos: seq<MemberInfo>)

  /** `handles` is the group handle and the snapshot handles of a pre-provisioned content. */
  datatype GroupContent = GroupContent(
    refUid: string,
    volumeHandles: seq<string>,
    handles: Option<(string, seq<string>)>,
    policy: DeletionPolicy,
    className: Option<string>,
    deleted: bool,
    finalizers: seq<Finalizer>,
    beingCreated: bool,
    beingDeleted: bool,
    status: Option<GroupStatus>)

  const EMPTY_GROUP_STATUS := GroupStatus(None, None, None, None, [])

  function GroupHandleIn(c: GroupContent): Option<string> {
    if c.status.Some? then c.status.value.handle else None
  }

  predicate IsGroupReady(c: GroupContent) {
    c.status.Some? && c.status.value.ready == Some(true)
  }

  predicate ShouldDeleteGroup(c: GroupContent) {
    c.deleted && ((c.handles.Some? && c.refUid == "") || (!c.beingCreated && c.beingDeleted))
  }

  /** The snapshots named to DeleteGroupSnapshot; without any the call is not sent. */
  function SnapshotIds(c: GroupContent): seq<string> {
    if c.status.None? then []
    else if c.status.value.infos != [] then seq(|c.status.value.infos|, i requires 0 <= i < |c.status.value.infos| => c.status.value.infos[i].snapshotHandle)
    else if c.handles.Some? then c.handles.value.1 else []
  }

  function MergeGroupStatus(prior: Option<GroupStatus>, handle: string, ready: bool, created: int, infos: seq<MemberInfo>): GroupStatus {
    match prior
    case None => GroupStatus(Some(handle), Some(ready), Some(created), None, infos)
    case Some(st) =>
      GroupStatus(
        if st.handle.None? then Some(handle) else st.handle,
        Some(ready),
        if st.created.None? then Some(created) else st.created,
        if st.ready != Some(ready) && ready then None else st.error,
        if st.infos == [] then infos else st.infos)
  }

  function Cleared(c: GroupContent): GroupContent {
    if c.status.None? then c
    else c.(status := Some(c.status.value.(handle := None, ready := None, created := None, error := None)))
  }

  function WithGroupError(c: GroupContent, copy: GroupContent, now: int, m: Message): GroupContent
    requires copy.status.Some? ==> c.status.Some?
  {
    var e := Some(StatusError(Some(now), m));
    if copy.status.None? then c.(status := Some(EMPTY_GROUP_STATUS.(ready := Some(false), error := e)))
    else c.(status := Some(c.status.value.(error := e, ready := Some(false))))
  }

  // ---- The pass, cut at every call ----

  datatype GroupPc =
    | SettingBeingCreated(copy: GroupContent, paramsOk: bool)
    | Creating(copy: GroupContent)
    | Recording(copy: GroupContent, handle: string, ready: bool, created: int, infos: seq<MemberInfo>, byCreate: bool)
    | RemovingBeingCreated(copy: GroupContent, why: Removal)
    | GettingStatus(copy: GroupContent)
    | ReportingError(copy: GroupContent, message: Message)
    | Deleting(copy: GroupContent)
    | Clearing(copy: GroupContent)
    | RemovingFinalizer(copy: GroupContent)
    | Finished

  /** `newer`: the cache takes the cleared content, so that it is synced at once. */
  datatype GroupInputs = GroupInputs(classFound: bool, paramsOk: bool, secretsOk: bool, getSecretsOk: bool, newer: bool)

  datatype GroupAnswer =
    | Ok(now: int) | Refused | LostAnswer(now: int)
    | GroupCreated(handle: string, ready: bool, created: int, infos: seq<MemberInfo>)
    | GroupFailed(error: RpcError, message: Message)
    | GroupDeleted | DeleteRefused(gone: bool)
    | GroupStatusRead(ready: bool, created: int) | GroupStatusFailed(message: Message)

  function BeginGroup(c: GroupContent, inp: GroupInputs): (r: GroupPc)
    ensures r.Deleting? ==> r.copy == c && c.policy == Delete && GroupHandleIn(c).Some? && ShouldDeleteGroup(c)
    ensures !r.Clearing?
  {
    if ShouldDeleteGroup(c) then
      if c.policy == Delete && GroupHandleIn(c).Some? then (if inp.secretsOk then Deleting(c) else Finished)
      else if GroupContentBound in c.finalizers then RemovingFinalizer(c) else Finished
    else if c.volumeHandles != [] && c.status.None? then StartCreating(c, inp)
    else if IsGroupReady(c) then (if c.beingCreated then RemovingBeingCreated(c, AlreadyReady) else Finished)
    else if c.handles.Some? then
      (if c.className.Some? && !(inp.classFound && inp.getSecretsOk) then Reporting(c, NoClassOrSecret) else GettingStatus(c))
    else StartCreating(c, inp)
  }

  function StartCreating(c: GroupContent, inp: GroupInputs): GroupPc {
    if (c.className.None? && c.volumeHandles != []) || (c.className.Some? && !inp.classFound) || !inp.secretsOk then Reporting(c, NoInput)
    else if c.beingCreated then Announced(c, inp.paramsOk)
    else SettingBeingCreated(c, inp.paramsOk)
  }

  function Announced(c: GroupContent, paramsOk: bool): GroupPc {
    if paramsOk then Creating(c) else Reporting(c, BadParameters)
  }

  function Reporting(c: GroupContent, m: Message): GroupPc {
    if c.status.Some? && c.status.value.error.Some? && c.status.value.error.value.message == m then Finished else ReportingError(c, m)
  }

  predicate ApiMay(possible: bool, a: GroupAnswer) {
    a.Refused? || (possible && (a.Ok? || a.LostAnswer?))
  }

  predicate Possible(pc: GroupPc, stored: Option<GroupContent>, a: GroupAnswer) {
    match pc
    case Creating(c) =>
      if c.refUid == "" || c.volumeHandles == [] then a.GroupFailed? && a.error.NotGrpc? else a.GroupCreated? || a.GroupFailed?
    case GettingStatus(_) => a.GroupStatusRead? || a.GroupStatusFailed?
    case Deleting(c) => if SnapshotIds(c) == [] then a == DeleteRefused(false) else a.GroupDeleted? || a.DeleteRefused?
    case RemovingBeingCreated(_, _) => ApiMay(stored.Some? && stored.value.beingCreated, a)
    case ReportingError(c, _) => ApiMay(stored.Some? && (c.status.Some? ==> stored.value.status.Some?), a)
    case Finished => false
    case _ => ApiMay(stored.Some?, a)
  }

  function Rewritten(pc: GroupPc, c: GroupContent, a: GroupAnswer): GroupContent
    requires Possible(pc, Some(c), a)
  {
    if !(a.Ok? || a.LostAnswer?) then c
    else
      match pc
      case SettingBeingCreated(_, _) => c.(beingCreated := true)
      case Recording(_, h, ready, created, infos, _) => c.(status := Some(MergeGroupStatus(c.status, h, ready, created, infos)))
      case RemovingBeingCreated(_, _) => c.(beingCreated := false)
      case ReportingError(copy, m) => WithGroupError(c, copy, a.now, m)
      case Clearing(_) => Cleared(c)
      case RemovingFinalizer(copy) => c.(finalizers := Without(copy.finalizers, GroupContentBound))
      case _ => c
  }

  /** `latest` is the content after the call. */
  function NextGroup(pc: GroupPc, latest: Option<GroupContent>, a: GroupAnswer, inp: GroupInputs): GroupPc
    requires a.Ok? ==> latest.Some?
  {
    match pc
    case SettingBeingCreated(c, paramsOk) => if a.Ok? then Announced(latest.value, paramsOk) else Reporting(c, AnnotateFailed)
    case Creating(c) =>
      if a.GroupCreated? then Recording(c, a.handle, a.ready, a.created, a.infos, true)
      else if a.GroupFailed? then
        (if IsFinalError(a.error) && c.beingCreated then RemovingBeingCreated(c, AfterFinalError(a.message)) else Reporting(c, a.message))
      else Finished
    case Recording(c, _, _, _, _, byCreate) =>
      if !a.Ok? then Reporting(c, RecordFailed)
      else if byCreate && latest.value.beingCreated then RemovingBeingCreated(latest.value, AfterCreate) else Finished
    case RemovingBeingCreated(c, why) =>
      (match why
       case AfterCreate => if a.Ok? then Finished else Reporting(c, UnannotateFailed)
       case AfterFinalError(m) => if a.Ok? then Reporting(latest.value, m) else Reporting(c, UnannotateFailed)
       case AlreadyReady => Finished)
    case GettingStatus(c) =>
      if a.GroupStatusRead? && c.handles.Some? then Recording(c, c.handles.value.0, a.ready, a.created, [], false)
      else if a.GroupStatusFailed? then Reporting(c, a.message) else Finished
    case ReportingError(_, _) => Finished
    case Deleting(c) => if a.GroupDeleted? then Clearing(c) else Finished
    case Clearing(_) => if a.Ok? && inp.newer then BeginGroup(latest.value, inp) else Finished
    case RemovingFinalizer(_) => Finished
    case Finished => Finished
  }

  // ---- The pass ends ----

  /** Deleting comes first, clearing next; after that nothing leads back to deleting. */
  function GroupDistance(pc: GroupPc): nat {
    match pc
    case Deleting(_) => 9
    case Clearing(_) => 8
    case SettingBeingCreated(_, _) => 6
    case Creating(_) => 5
    case GettingStatus(_) => 5
    case Recording(_, _, _, _, _, _) => 4
    case RemovingBeingCreated(_, _) => 3
    case ReportingError(_, _) => 1
    case RemovingFinalizer(_) => 1
    case Finished => 0
  }

  /**
   Every call brings the pass closer to its end, even the one that clears the status and syncs the content
   again: the sync it starts finds no handle, so it cannot delete a second time.
   */
  lemma GroupPassesEnd(pc: GroupPc, stored: Option<GroupContent>, a: GroupAnswer, inp: GroupInputs)
    requires Possible(pc, stored, a)
    ensures var latest := if stored.Some? then Some(Rewritten(pc, stored.value, a)) else None;
            var next := NextGroup(pc, latest, a, inp);
            GroupDistance(next) < GroupDistance(pc) && !next.Deleting?
  {}

  // ---- Runs over one content ----

  /**
   One dynamic content and its name at the driver: the handle the driver holds under the name, whether an
   unanswered creation may still succeed, the pass under way, and whether DeleteGroupSnapshot was sent or
   a Retain content let go.
   */
  datatype GroupWorld = GroupWorld(
    stored: Option<GroupContent>,
    held: Option<string>,
    pending: bool,
    pass: GroupPc,
    inputs: GroupInputs,
    destroyed: bool,
    released: bool,
    gone: set<string>)

  datatype GroupStep =
    | ProtectContent
    | MarkGroupDeleted
    | DeleteGroupContent
    | BeginGroupPass(inp: GroupInputs)
    | AdvanceGroup(answer: GroupAnswer)
    | CrashGroup
    | FinishGroupCreation(handle: string)

  predicate GroupMayCreate(w: GroupWorld, h: string) {
    h !in w.gone && (w.held.Some? ==> w.held == Some(h))
  }

  predicate GroupEnabled(w: GroupWorld, step: GroupStep) {
    match step
    case ProtectContent => w.stored.Some? && !w.stored.value.deleted && GroupContentBound !in w.stored.value.finalizers
    case MarkGroupDeleted => w.stored.Some?
    case DeleteGroupContent => w.stored.Some?
    case BeginGroupPass(_) => w.stored.Some? && w.pass.Finished?
    case AdvanceGroup(a) =>
      && !w.pass.Finished? && Possible(w.pass, w.stored, a)
      && (w.pass.Creating? && a.GroupCreated? ==> GroupMayCreate(w, a.handle))
      && (w.pass.Creating? && a.GroupFailed? && HasFailed(a.error) ==> w.held.None?)
    case CrashGroup => true
    case FinishGroupCreation(h) => w.pending && GroupMayCreate(w, h)
  }

  /** The API server drops a deleted content without finalizers. */
  function StoreGroup(w: GroupWorld, c: GroupContent): GroupWorld {
    if c.deleted && c.finalizers == [] then w.(stored := None, released := w.released || c.policy == Retain) else w.(stored := Some(c))
  }

  function ApplyGroup(w: GroupWorld, step: GroupStep): GroupWorld
    requires GroupEnabled(w, step)
  {
    match step
    case ProtectContent => StoreGroup(w, w.stored.value.(finalizers := w.stored.value.finalizers + [GroupContentBound]))
    case MarkGroupDeleted => StoreGroup(w, w.stored.value.(beingDeleted := true))
    case DeleteGroupContent => StoreGroup(w, w.stored.value.(deleted := true))
    case BeginGroupPass(inp) => w.(pass := BeginGroup(w.stored.value, inp), inputs := inp)
    case AdvanceGroup(a) => AdvanceGroupPass(w, a)
    case CrashGroup => w.(pass := Finished)
    case FinishGroupCreation(h) => w.(held := Some(h))
  }

  function AdvanceGroupPass(w: GroupWorld, a: GroupAnswer): GroupWorld
    requires Possible(w.pass, w.stored, a)
  {
    var latest := if w.stored.Some? then Some(Rewritten(w.pass, w.stored.value, a)) else None;
    var w1 := if latest.Some? then StoreGroup(w, latest.value) else w;
    var deletes := w.pass.Deleting? && (a.GroupDeleted? || (a.DeleteRefused? && a.gone));
    var h := if w.pass.Deleting? then GroupHandleIn(w.pass.copy) else None;
    w1.(pass := NextGroup(w.pass, latest, a, w.inputs),
        held := if w.pass.Creating? && a.GroupCreated? then Some(a.handle)
                else if deletes && w.held == h then None else w.held,
        pending := if !w.pass.Creating? then w.pending
                   else if a.GroupCreated? then false
                   else if a.GroupFailed? && HasFailed(a.error) then false
                   else w.pending || (a.GroupFailed? && MayGoOn(a.error)),
        destroyed := w.destroyed || w.pass.Deleting?,
        gone := if deletes && h.Some? then w.gone + {h.value} else w.gone)
  }

  predicate GroupInitial(w: GroupWorld) {
    && w.stored.Some? && w.held.None? && !w.pending && w.pass.Finished? && !w.destroyed && !w.released
    && var c := w.stored.value;
    && c.refUid != "" && c.volumeHandles != [] && c.handles.None? && !c.deleted && c.status.None?
    && !c.beingCreated && !c.beingDeleted
  }

  // ---- No leak ----

  predicate InDriver(w: GroupWorld) {
    w.held.Some? || w.pending
  }

  predicate GroupNoLeak(w: GroupWorld) {
    InDriver(w) && !w.released ==> w.stored.Some? && (w.stored.value.beingCreated || GroupHandleIn(w.stored.value).Some?)
  }

  /** A Delete call finds no finalizer on a content whose group snapshot exists, or is about to be asked for. */
  predicate UnsafeGroupDelete(w: GroupWorld, step: GroupStep) {
    step.DeleteGroupContent? && w.stored.Some? && w.stored.value.finalizers == [] && w.stored.value.policy == Delete && !w.released
    && (InDriver(w) || w.pass.Creating?)
  }

  predicate HandleOk(w: GroupWorld, h: string) {
    (w.held.Some? ==> w.held == Some(h)) && (w.held.Some? || h in w.gone)
  }

  predicate GroupSpecOk(c: GroupContent) {
    c.refUid != "" && c.volumeHandles != [] && c.handles.None?
  }

  predicate GroupTrack(w: GroupWorld, c: GroupContent) {
    && GroupSpecOk(c)
    && (InDriver(w) && !w.released ==> c.beingCreated || GroupHandleIn(c).Some?)
    && (!c.beingCreated && GroupHandleIn(c).Some? ==> !w.pending)
    && (GroupHandleIn(c).Some? ==> HandleOk(w, GroupHandleIn(c).value) && (!w.destroyed ==> w.held == GroupHandleIn(c)))
    && (IsGroupReady(c) ==> GroupHandleIn(c).Some? && !w.pending)
    && (w.destroyed ==> ShouldDeleteGroup(c) && !w.pending)
  }

  predicate GroupPassTrack(w: GroupWorld, pc: GroupPc) {
    pc.Finished? ||
    (var c := pc.copy;
     && GroupSpecOk(c)
     && (w.stored.Some? ==> c.policy == w.stored.value.policy && (c.deleted ==> w.stored.value.deleted)
                            && (c.beingDeleted ==> w.stored.value.beingDeleted))
     && match pc
        case SettingBeingCreated(_, _) =>
          !w.destroyed && !IsGroupReady(c) && (w.stored.Some? ==> c.status == w.stored.value.status && !w.stored.value.beingCreated)
        case Creating(_) =>
          (w.stored.Some? || w.released) && !w.destroyed && !IsGroupReady(c) && c.beingCreated
          && (w.stored.Some? ==> c.status == w.stored.value.status && w.stored.value.beingCreated)
        case Recording(_, h, _, _, _, byCreate) =>
          byCreate && !w.destroyed && !w.pending && c.beingCreated && w.held == Some(h)
          && (w.stored.Some? ==> c.status == w.stored.value.status && w.stored.value.beingCreated)
        case RemovingBeingCreated(_, why) =>
          !w.destroyed && (w.stored.Some? ==> c.status == w.stored.value.status)
          && (match why
              case AfterCreate => GroupHandleIn(c).Some? && !w.pending
              case AfterFinalError(_) => !InDriver(w)
              case AlreadyReady => IsGroupReady(c))
        case GettingStatus(_) => false
        case ReportingError(_, _) =>
          !w.destroyed && (w.stored.Some? && c.status.None? ==> w.stored.value.beingCreated || GroupHandleIn(w.stored.value).None?)
        case Deleting(_) =>
          c.policy == Delete && GroupHandleIn(c).Some? && ShouldDeleteGroup(c) && !w.pending && HandleOk(w, GroupHandleIn(c).value)
          && (w.stored.Some? ==> c.status == w.stored.value.status && !w.stored.value.beingCreated)
        case Clearing(_) => w.destroyed && !InDriver(w)
        case RemovingFinalizer(_) =>
          w.stored.Some? ==> ShouldDeleteGroup(w.stored.value) && (c.policy == Delete ==> GroupHandleIn(w.stored.value).None?))
  }

  predicate GroupTracked(w: GroupWorld) {
    && (w.stored.Some? ==> GroupTrack(w, w.stored.value) && (w.stored.value.deleted ==> w.stored.value.finalizers != []))
    && (w.stored.None? && InDriver(w) ==> w.released)
    && GroupPassTrack(w, w.pass)
    && (w.held.Some? ==> w.held.value !in w.gone)
  }

  lemma RewrittenKeepsSpec(pc: GroupPc, c: GroupContent, a: GroupAnswer)
    requires Possible(pc, Some(c), a)
    ensures var d := Rewritten(pc, c, a);
            && d.policy == c.policy && d.deleted == c.deleted && d.beingDeleted == c.beingDeleted
            && d.refUid == c.refUid && d.volumeHandles == c.volumeHandles && d.handles == c.handles
            && (d.finalizers == c.finalizers || pc.RemovingFinalizer?)
  {}

  lemma RewrittenIsTracked(w: GroupWorld, a: GroupAnswer)
    requires w.stored.Some? && GroupTrack(w, w.stored.value) && GroupPassTrack(w, w.pass) && Possible(w.pass, w.stored, a)
    requires !w.pass.Creating? && !w.pass.Deleting?
    ensures GroupTrack(w, Rewritten(w.pass, w.stored.value, a))
  {
    RewrittenKeepsSpec(w.pass, w.stored.value, a);
  }

  lemma NextGroupPassIsTracked(w: GroupWorld, a: GroupAnswer)
    requires GroupTracked(w) && Possible(w.pass, w.stored, a) && !w.pass.Creating? && !w.pass.Deleting?
    ensures var latest := if w.stored.Some? then Some(Rewritten(w.pass, w.stored.value, a)) else None;
            GroupPassTrack(w.(stored := latest), NextGroup(w.pass, latest, a, w.inputs))
  {
    if w.stored.Some? {
      RewrittenKeepsSpec(w.pass, w.stored.value, a);
      RewrittenIsTracked(w, a);
    }
  }

  lemma GroupApiCallIsTracked(w: GroupWorld, a: GroupAnswer)
    requires GroupTracked(w) && GroupEnabled(w, AdvanceGroup(a)) && !w.pass.Creating? && !w.pass.Deleting?
    ensures GroupTracked(AdvanceGroupPass(w, a))
  {
    NextGroupPassIsTracked(w, a);
    if w.stored.Some? {
      RewrittenKeepsSpec(w.pass, w.stored.value, a);
      RewrittenIsTracked(w, a);
    }
  }

  lemma GroupRpcIsTracked(w: GroupWorld, a: GroupAnswer)
    requires GroupTracked(w) && GroupEnabled(w, AdvanceGroup(a)) && (w.pass.Creating? || w.pass.Deleting?)
    ensures GroupTracked(AdvanceGroupPass(w, a))
  {}

  lemma StepKeepsGroupTracked(w: GroupWorld, step: GroupStep)
    requires GroupTracked(w) && GroupEnabled(w, step) && !UnsafeGroupDelete(w, step)
    ensures GroupTracked(ApplyGroup(w, step))
  {
    match step {
      case AdvanceGroup(a) =>
        if w.pass.Creating? || w.pass.Deleting? {
          GroupRpcIsTracked(w, a);
        } else {
          GroupApiCallIsTracked(w, a);
        }
      case BeginGroupPass(inp) => GroupBeginIsTracked(w, inp);
      case CrashGroup =>
      case FinishGroupCreation(_) =>
      case _ => GroupWriteIsTracked(w, step);
    }
  }

  lemma GroupWriteIsTracked(w: GroupWorld, step: GroupStep)
    requires GroupTracked(w) && GroupEnabled(w, step) && !UnsafeGroupDelete(w, step)
    requires step.ProtectContent? || step.MarkGroupDeleted? || step.DeleteGroupContent?
    ensures GroupTracked(ApplyGroup(w, step))
  {}

  lemma GroupBeginIsTracked(w: GroupWorld, inp: GroupInputs)
    requires GroupTracked(w) && GroupEnabled(w, BeginGroupPass(inp))
    ensures GroupTracked(ApplyGroup(w, BeginGroupPass(inp)))
  {}

  // ---- Every run ----

  ghost predicate IsGroupRun(ws: seq<GroupWorld>, steps: seq<GroupStep>) {
    && |ws| == |steps| + 1
    && GroupInitial(ws[0])
    && forall i | 0 <= i < |steps| :: GroupEnabled(ws[i], steps[i]) && ws[i + 1] == ApplyGroup(ws[i], steps[i])
  }

  lemma {:induction false} GroupRunsKeepTracking(ws: seq<GroupWorld>, steps: seq<GroupStep>, i: nat)
    requires IsGroupRun(ws, steps) && i < |ws| && forall j | 0 <= j < i :: !UnsafeGroupDelete(ws[j], steps[j])
    ensures GroupTracked(ws[i])
  {
    if i > 0 {
      GroupRunsKeepTracking(ws, steps, i - 1);
      StepKeepsGroupTracked(ws[i - 1], steps[i - 1]);
    }
  }

  /** No group snapshot is leaked in any run, with crashes, lost answers and errors anywhere. */
  lemma NoGroupLeakInEveryRun(ws: seq<GroupWorld>, steps: seq<GroupStep>, i: nat)
    requires IsGroupRun(ws, steps) && i < |ws| && forall j | 0 <= j < i :: !UnsafeGroupDelete(ws[j], steps[j])
    ensures GroupNoLeak(ws[i])
  {
    GroupRunsKeepTracking(ws, steps, i);
  }

  const GROUP_TIMEOUT := GroupFailed(Grpc(DeadlineExceeded), CreationFailed)

  /** The exception is exact: such a deletion leaks at once, or when the creation it overtakes times out. */
  lemma UnsafeGroupDeleteLeaks(w: GroupWorld)
    requires GroupTracked(w) && GroupEnabled(w, DeleteGroupContent) && UnsafeGroupDelete(w, DeleteGroupContent)
    ensures var w1 := ApplyGroup(w, DeleteGroupContent);
            var timeout := AdvanceGroup(GROUP_TIMEOUT);
            !GroupNoLeak(w1) || (GroupEnabled(w1, timeout) && !GroupNoLeak(ApplyGroup(w1, timeout)))
  {}

  /** Tracked, or the content is gone and the pass that outlived it, if any, only creates or only deletes. */
  predicate OneWay(w: GroupWorld) {
    GroupTracked(w) || (w.stored.None? && (if w.destroyed then !w.pass.Creating? else !w.pass.Deleting?))
  }

  lemma UnsafeGroupDeleteIsOneWay(w: GroupWorld)
    requires GroupTracked(w) && GroupEnabled(w, DeleteGroupContent) && UnsafeGroupDelete(w, DeleteGroupContent)
    ensures OneWay(ApplyGroup(w, DeleteGroupContent))
  {}

  lemma OrphanIsOneWay(w: GroupWorld, step: GroupStep)
    requires OneWay(w) && w.stored.None? && !GroupTracked(w) && GroupEnabled(w, step)
    ensures OneWay(ApplyGroup(w, step))
  {}

  lemma {:induction false} GroupRunsAreOneWay(ws: seq<GroupWorld>, steps: seq<GroupStep>, i: nat)
    requires IsGroupRun(ws, steps) && i < |ws|
    ensures OneWay(ws[i])
  {
    if i > 0 {
      GroupRunsAreOneWay(ws, steps, i - 1);
      var w, step := ws[i - 1], steps[i - 1];
      if !GroupTracked(w) {
        OrphanIsOneWay(w, step);
      } else if UnsafeGroupDelete(w, step) {
        UnsafeGroupDeleteIsOneWay(w);
      } else {
        StepKeepsGroupTracked(w, step);
      }
    }
  }

  /** A call of CreateGroupSnapshot never follows one of DeleteGroupSnapshot, in any run at all. */
  lemma NoGroupCreationAfterDeletion(ws: seq<GroupWorld>, steps: seq<GroupStep>, i: nat)
    requires IsGroupRun(ws, steps) && i < |ws|
    ensures ws[i].destroyed ==> !ws[i].pass.Creating?
  {
    GroupRunsAreOneWay(ws, steps, i);
  }

  // ---- A run that leaks ----

  function LeakingSteps(): seq<GroupStep> {
    [BeginGroupPass(GroupInputs(true, true, true, true, true)), AdvanceGroup(Ok(0)), DeleteGroupContent, AdvanceGroup(GROUP_TIMEOUT)]
  }

  /** From every initial content that the common controller has not protected yet there is a run of four steps into a leak. */
  lemma GroupRunThatLeaks(w: GroupWorld)
    requires GroupInitial(w) && w.stored.value.finalizers == [] && w.stored.value.policy == Delete && w.stored.value.className.Some?
    ensures exists ws :: IsGroupRun(ws, LeakingSteps()) && ws[0] == w && !GroupNoLeak(ws[4])
  {
    var steps := LeakingSteps();
    var c := w.stored.value.(beingCreated := true);
    var w1 := ApplyGroup(w, steps[0]);
    assert w1.pass == SettingBeingCreated(w.stored.value, true);
    var w2 := ApplyGroup(w1, steps[1]);
    assert w2.pass == Creating(c) && w2.stored == Some(c);
    var w3 := ApplyGroup(w2, steps[2]);
    assert w3.pass == Creating(c) && w3.stored.None?;
    var w4 := ApplyGroup(w3, steps[3]);
    var ws := [w, w1, w2, w3, w4];
    assert IsGroupRun(ws, steps) && w4.pending;
  }

  // ---- The code, with its recursion ----

  type GroupEnv = (nat, GroupPc, Option<GroupContent>) -> GroupAnswer

  function GroupFailure(pc: GroupPc): GroupAnswer {
    if pc.Creating? then GroupFailed(NotGrpc, CreationFailed)
    else if pc.GettingStatus? then GroupStatusFailed(CreationFailed)
    else if pc.Deleting? then DeleteRefused(false)
    else Refused
  }

  function GroupReply(env: GroupEnv, k: nat, pc: GroupPc, stored: Option<GroupContent>): (a: GroupAnswer)
    requires !pc.Finished?
    ensures Possible(pc, stored, a)
  {
    if Possible(pc, stored, env(k, pc, stored)) then env(k, pc, stored) else GroupFailure(pc)
  }

  function LatestGroup(pc: GroupPc, stored: Option<GroupContent>, a: GroupAnswer): Option<GroupContent>
    requires Possible(pc, stored, a)
  {
    if stored.Some? then Some(Rewritten(pc, stored.value, a)) else None
  }

  function KeptGroup(c: Option<GroupContent>): Option<GroupContent> {
    if c.Some? && c.value.deleted && c.value.finalizers == [] then None else c
  }

  datatype GroupEnd = GroupEnd(stored: Option<GroupContent>, calls: nat)

  function FinishGroup(env: GroupEnv, inp: GroupInputs, k: nat, pc: GroupPc, stored: Option<GroupContent>): GroupEnd
    decreases GroupDistance(pc)
  {
    if pc.Finished? then GroupEnd(stored, k)
    else
      var a := GroupReply(env, k, pc, stored);
      var latest := LatestGroup(pc, stored, a);
      GroupPassesEnd(pc, stored, a, inp);
      FinishGroup(env, inp, k + 1, NextGroup(pc, latest, a, inp), KeptGroup(latest))
  }

  /**
   A group that came back from the driver without members is never deleted: DeleteGroupSnapshot is not
   even sent, so the content stays as it is whatever the surroundings.
   */
  lemma MemberlessGroupsStay(env: GroupEnv, inp: GroupInputs, k: nat, c: GroupContent)
    requires ShouldDeleteGroup(c) && c.policy == Delete && GroupHandleIn(c).Some? && SnapshotIds(c) == []
             && c.finalizers != []
    ensures FinishGroup(env, inp, k, BeginGroup(c, inp), Some(c)).stored == Some(c)
  {}

  class GroupSidecarController {
    var server: Option<GroupContent>
    var calls: nat
    // How often DeleteGroupSnapshot was called.
    var deletions: nat
    const env: GroupEnv
    const inputs: GroupInputs

    constructor (c: Option<GroupContent>, e: GroupEnv, inp: GroupInputs)
      ensures server == c && calls == 0 && deletions == 0 && env == e && inputs == inp
    {
      server, calls, deletions, env, inputs := c, 0, 0, e, inp;
    }

    ghost function Rest(pc: GroupPc): GroupEnd
      reads this
    {
      FinishGroup(env, inputs, calls, pc, server)
    }

    method Call(pc: GroupPc) returns (a: GroupAnswer, latest: Option<GroupContent>)
      requires !pc.Finished?
      modifies this`server, this`calls
      ensures Possible(pc, old(server), a) && latest == LatestGroup(pc, old(server), a)
      ensures a.Ok? ==> latest.Some?
      ensures old(Rest(pc)) == Rest(NextGroup(pc, latest, a, inputs))
    {
      a := GroupReply(env, calls, pc, server);
      latest := LatestGroup(pc, server, a);
      server, calls := KeptGroup(latest), calls + 1;
    }

    method ReportError(content: GroupContent, message: Message)
      modifies this`server, this`calls
      ensures old(Rest(Reporting(content, message))) == GroupEnd(server, calls)
    {
      if content.status.Some? && content.status.value.error.Some? && content.status.value.error.value.message == message {
        return;
      }
      var _, _ := Call(ReportingError(content, message));
    }

    method CreateGroupSnapshotWrapper(content: GroupContent)
      modifies this`server, this`calls
      ensures old(Rest(StartCreating(content, inputs))) == GroupEnd(server, calls)
    {
      if (content.className.None? && content.volumeHandles != []) || (content.className.Some? && !inputs.classFound) || !inputs.secretsOk {
        ReportError(content, NoInput);
        return;
      }
      var announced := content;
      if !content.beingCreated {
        var a, latest := Call(SettingBeingCreated(content, inputs.paramsOk));
        if !a.Ok? {
          ReportError(content, AnnotateFailed);
          return;
        }
        announced := latest.value;
      }
      if !inputs.paramsOk {
        ReportError(announced, BadParameters);
        return;
      }
      var a, _ := Call(Creating(announced));
      if a.GroupFailed? {
        if IsFinalError(a.error) && announced.beingCreated {
          var removed, latest := Call(RemovingBeingCreated(announced, AfterFinalError(a.message)));
          if removed.Ok? {
            ReportError(latest.value, a.message);
          } else {
            ReportError(announced, UnannotateFailed);
          }
        } else {
          ReportError(announced, a.message);
        }
        return;
      }
      var recorded, latest := Call(Recording(announced, a.handle, a.ready, a.created, a.infos, true));
      if !recorded.Ok? {
        ReportError(announced, RecordFailed);
        return;
      }
      if latest.value.beingCreated {
        var removed, _ := Call(RemovingBeingCreated(latest.value, AfterCreate));
        if !removed.Ok? {
          ReportError(latest.value, UnannotateFailed);
        }
      }
    }

    method CheckAndUpdateGroupSnapshotContentStatus(content: GroupContent)
      modifies this`server, this`calls
      ensures old(Rest(if content.handles.Some? then
                         (if content.className.Some? && !(inputs.classFound && inputs.getSecretsOk) then Reporting(content, NoClassOrSecret)
                          else GettingStatus(content))
                       else StartCreating(content, inputs))) == GroupEnd(server, calls)
    {
      if content.handles.None? {
        CreateGroupSnapshotWrapper(content);
        return;
      }
      if content.className.Some? && !(inputs.classFound && inputs.getSecretsOk) {
        ReportError(content, NoClassOrSecret);
        return;
      }
      var a, _ := Call(GettingStatus(content));
      if a.GroupStatusFailed? {
        ReportError(content, a.message);
        return;
      }
      var recorded, _ := Call(Recording(content, content.handles.value.0, a.ready, a.created, [], false));
      if !recorded.Ok? {
        ReportError(content, RecordFailed);
      }
    }

    /** What syncing a content will find to do, handle first: the measure of the recursion. */
    function Handles(content: GroupContent): nat {
      if GroupHandleIn(content).Some? then 1 else 0
    }

    method SyncGroupSnapshotContent(content: GroupContent)
      modifies this
      ensures old(Rest(BeginGroup(content, inputs))) == GroupEnd(server, calls)
      ensures deletions <= old(deletions) + Handles(content)
      decreases Handles(content), 1
    {
      if ShouldDeleteGroup(content) {
        if content.policy == Delete && GroupHandleIn(content).Some? {
          DeleteCSIGroupSnapshotOperation(content);
        } else if GroupContentBound in content.finalizers {
          var _, _ := Call(RemovingFinalizer(content));
        }
        return;
      }
      if content.volumeHandles != [] && content.status.None? {
        CreateGroupSnapshotWrapper(content);
        return;
      }
      if IsGroupReady(content) {
        if content.beingCreated {
          var _, _ := Call(RemovingBeingCreated(content, AlreadyReady));
        }
        return;
      }
      CheckAndUpdateGroupSnapshotContentStatus(content);
    }

    method DeleteCSIGroupSnapshotOperation(content: GroupContent)
      requires ShouldDeleteGroup(content) && content.policy == Delete && GroupHandleIn(content).Some?
      modifies this
      ensures old(Rest(if inputs.secretsOk then Deleting(content) else Finished)) == GroupEnd(server, calls)
      ensures deletions <= old(deletions) + 1
      decreases Handles(content), 0
    {
      if !inputs.secretsOk {
        return;
      }
      var a, _ := Call(Deleting(content));
      deletions := deletions + if SnapshotIds(content) == [] then 0 else 1;
      if !a.GroupDeleted? {
        return;
      }
      var cleared, latest := Call(Clearing(content));
      if !cleared.Ok? {
        return;
      }
      UpdateGroupSnapshotContentInInformerCache(latest.value);
    }

    /** The cleared content is synced at once if the cache takes it. */
    method UpdateGroupSnapshotContentInInformerCache(content: GroupContent)
      requires GroupHandleIn(content).None?
      modifies this
      ensures old(Rest(if inputs.newer then BeginGroup(content, inputs) else Finished)) == GroupEnd(server, calls)
      ensures deletions <= old(deletions)
      decreases Handles(content), 2
    {
      if !inputs.newer {
        return;
      }
      SyncGroupSnapshotContent(content);
    }
  }
}
