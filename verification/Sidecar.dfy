/**
 The decisions of the CSI sidecar for one VolumeSnapshotContent, and the pass it
 makes over it, cut at every API and CSI call. A pass works on the copy of the
 content it read when it began, so what the API server holds may have moved on.
 */
module Sidecar {
  import opened Objects

  // ---- CSI errors ----

  datatype GrpcCode =
    | Canceled | Unknown | InvalidArgument | DeadlineExceeded | NotFound | AlreadyExists
    | PermissionDenied | ResourceExhausted | FailedPrecondition | Aborted | OutOfRange
    | Unimplemented | Internal | Unavailable | DataLoss | Unauthenticated

  /** NotGrpc: the call failed before any gRPC method was invoked. */
  datatype RpcError = NotGrpc | Grpc(code: GrpcCode)

  predicate IsFinalError(e: RpcError) {
    match e
    case NotGrpc => false
    case Grpc(code) =>
      !(code.Canceled? || code.DeadlineExceeded? || code.Unavailable? || code.ResourceExhausted? || code.Aborted?)
  }

  // ---- Names at the driver ----

  /** Every dash removed. */
  function WithoutDashes(s: string): (r: string)
    ensures |r| <= |s|
    ensures '-' !in r
  {
    if s == "" then "" else if s[0] == '-' then WithoutDashes(s[1..]) else [s[0]] + WithoutDashes(s[1..])
  }

  datatype NameResult = Name(name: string) | MissingUid | OutOfRangeSlice

  /** The name a snapshot gets at the driver. A length of -1 keeps the whole UID. */
  function MakeSnapshotName(prefix: string, uid: string, uidLength: int): NameResult {
    if uid == "" then MissingUid
    else if uidLength == -1 then Name(SnapshotName(prefix, uid))
    else
      var short := WithoutDashes(uid);
      if 0 <= uidLength <= |short| then Name(prefix + "-" + short[..uidLength]) else OutOfRangeSlice
  }

  function SnapshotName(prefix: string, uid: string): string {
    prefix + "-" + uid
  }

  /** Untruncated names are one to one with UIDs. */
  lemma SnapshotNameInjective(prefix: string, u: string, v: string)
    requires SnapshotName(prefix, u) == SnapshotName(prefix, v)
    ensures u == v
  {
    var p := prefix + "-";
    assert u == (p + u)[|p|..];
    assert v == (p + v)[|p|..];
  }

  lemma SnapshotNamesInjective(prefix: string)
    ensures forall u, v {:trigger SnapshotName(prefix, u), SnapshotName(prefix, v)} ::
              SnapshotName(prefix, u) == SnapshotName(prefix, v) ==> u == v
  {
    forall u, v | SnapshotName(prefix, u) == SnapshotName(prefix, v) ensures u == v {
      SnapshotNameInjective(prefix, u, v);
    }
  }

  /** Every name begins with the prefix; a truncated one goes on with as many characters as asked for, none of them a dash. */
  lemma NamesCarryThePrefix(prefix: string, uid: string, n: int)
    requires MakeSnapshotName(prefix, uid, n).Name?
    ensures var name := MakeSnapshotName(prefix, uid, n).name;
            && prefix + "-" <= name
            && (if n == -1 then name[|prefix| + 1..] == uid
                else |name| == |prefix| + 1 + n && '-' !in name[|prefix| + 1..] && name[|prefix| + 1..] <= WithoutDashes(uid))
  {
    var name := MakeSnapshotName(prefix, uid, n).name;
    if n == -1 {
      assert name == (prefix + "-") + uid;
    } else {
      assert name == (prefix + "-") + WithoutDashes(uid)[..n];
    }
  }

  /** Two UIDs share a truncated name exactly when they agree on the kept dash-free prefix. */
  lemma TruncatedNamesCollideIff(prefix: string, u: string, v: string, n: nat)
    requires u != "" && v != ""
    requires n <= |WithoutDashes(u)| && n <= |WithoutDashes(v)|
    ensures MakeSnapshotName(prefix, u, n) == MakeSnapshotName(prefix, v, n)
            <==> WithoutDashes(u)[..n] == WithoutDashes(v)[..n]
  {
    var p := prefix + "-";
    var a, b := WithoutDashes(u)[..n], WithoutDashes(v)[..n];
    if p + a == p + b {
      assert a == (p + a)[|p|..];
      assert b == (p + b)[|p|..];
    }
  }

  // ---- Decisions on one content ----

  predicate ShouldDelete(c: Content) {
    c.deleted
    && ((c.snapshotHandle.Some? && c.refUid == "")
        || (BeingCreated !in c.annotations && BeingDeleted in c.annotations))
  }

  /** The handle DeleteSnapshot and GetSnapshotStatus are called with. */
  function RpcHandle(c: Content): Option<string> {
    if Handle(c).Some? then Handle(c) else c.snapshotHandle
  }

  /** Exactly one of the two sources is set, as the API schema demands. */
  predicate HasOneSource(c: Content) {
    c.volumeHandle.Some? != c.snapshotHandle.Some?
  }

  /** Provisioned by the controllers from a volume, outside any group. */
  predicate IsDynamic(c: Content) {
    c.volumeHandle.Some? && !IsGroupMember(c)
  }

  // ---- Status writes ----

  /** The status after the driver reported a snapshot: fields already present win, readiness is replaced. */
  function MergeStatus(prior: Option<ContentStatus>, handle: string, ready: bool, created: int, size: int, groupId: string): ContentStatus {
    match prior
    case None =>
      ContentStatus(
        Some(handle), Some(ready), Some(created), if size > 0 then Some(size) else None, None,
        if groupId != "" then Some(groupId) else None)
    case Some(st) =>
      ContentStatus(
        if st.handle.None? then Some(handle) else st.handle,
        Some(ready),
        if st.created.None? then Some(created) else st.created,
        if st.size.None? && size > 0 then Some(size) else st.size,
        if st.ready != Some(ready) && ready then None else st.error,
        if st.groupHandle.None? && groupId != "" then Some(groupId) else st.groupHandle)
  }

  /** An empty status and no status are merged alike. */
  lemma MergeFromEmptyStatus(handle: string, ready: bool, created: int, size: int, groupId: string)
    ensures MergeStatus(None, handle, ready, created, size, groupId)
            == MergeStatus(Some(EMPTY_CONTENT_STATUS), handle, ready, created, size, groupId)
  {}

  function FailedStatus(now: int, message: Message): ContentStatus {
    EMPTY_CONTENT_STATUS.(ready := Some(false), error := Some(StatusError(Some(now), message)))
  }

  /** The content after an error was patched in by a writer whose own copy had, or did not have, a status. */
  function WithErrorStatus(stored: Content, copy: Content, now: int, message: Message): Content
    requires copy.status.Some? ==> stored.status.Some?
  {
    if copy.status.None? then stored.(status := Some(FailedStatus(now, message)))
    else
      stored.(status := Some(stored.status.value.(
                      error := Some(StatusError(Some(now), message)),
                      ready := Some(false))))
  }

  function WithClearedStatus(c: Content): Content {
    if c.status.None? then c
    else c.(status := Some(c.status.value.(handle := None, ready := None, created := None, size := None)))
  }

  function WithBeingCreated(c: Content): Content {
    c.(annotations := c.annotations[BeingCreated := "yes"])
  }

  function WithoutBeingCreated(c: Content): Content {
    c.(annotations := c.annotations - {BeingCreated})
  }

  // ---- The pass ----

  /** What a pass looks up outside the content: its class, the class's parameters, the secrets. */
  datatype Inputs = Inputs(classFound: bool, paramsOk: bool, secretsOk: bool, listSecretsOk: bool)

  datatype Removal = AfterCreate | AfterFinalError(message: Message) | AlreadyReady

  /** Where a pass stands: the next call it makes, and the copy it makes it with. */
  datatype Pc =
    | AtSetBeingCreated(copy: Content, paramsOk: bool)
    | AtCreateSnapshot(copy: Content)
    | AtRecord(copy: Content, byCreate: bool, handle: string, ready: bool, created: int, size: int, groupId: string)
    | AtRemoveBeingCreated(copy: Content, why: Removal)
    | AtGetStatus(copy: Content)
    | AtErrorStatus(copy: Content, message: Message)
    | AtDeleteSnapshot(copy: Content)
    | AtClearStatus(copy: Content)
    | AtRemoveFinalizer(copy: Content)
    | Done(requeue: bool, failed: bool)

  /** What a call came back with. ApiLost: the server applied the write but the caller saw an error. */
  datatype Answer =
    | ApiOk(now: int) | ApiRejected | ApiLost(now: int)
    | Created(handle: string, ready: bool, created: int, size: int)
    | CreateFailed(error: RpcError, message: Message)
    | SnapshotDeleted | DeleteFailed(gone: bool)
    | StatusRead(ready: bool, created: int, size: int, groupId: string) | StatusFailed(message: Message)

  function Begin(c: Content, inp: Inputs): Pc {
    if ShouldDelete(c) then
      if c.policy == Delete && Handle(c).Some? && GroupHandleOf(c).None? then
        if inp.secretsOk then AtDeleteSnapshot(c) else Done(true, true)
      else ToRemoveFinalizer(c)
    else if c.volumeHandle.Some? && c.status.None? && !IsGroupMember(c) then ToCreate(c, inp)
    else if IsReady(c) then
      if BeingCreated in c.annotations then AtRemoveBeingCreated(c, AlreadyReady) else Done(false, false)
    else if c.snapshotHandle.Some? || (GroupHandleOf(c).Some? && Handle(c).Some?) then
      if c.className.Some? && !(inp.classFound && inp.listSecretsOk) then ToErrorStatus(c, NoClassOrSecret)
      else if GroupHandleOf(c).Some? && !inp.secretsOk then ToErrorStatus(c, NoClassOrSecret)
      else AtGetStatus(c)
    else if !IsGroupMember(c) then ToCreate(c, inp)
    else Done(true, false)
  }

  function ToCreate(c: Content, inp: Inputs): Pc {
    if c.className.None? || !inp.classFound || !inp.secretsOk then ToErrorStatus(c, NoInput)
    else if BeingCreated in c.annotations then AfterBeingCreated(c, inp.paramsOk)
    else AtSetBeingCreated(c, inp.paramsOk)
  }

  function AfterBeingCreated(c: Content, paramsOk: bool): Pc {
    if paramsOk then AtCreateSnapshot(c) else ToErrorStatus(c, BadParameters)
  }

  function ToErrorStatus(c: Content, message: Message): Pc {
    if c.status.Some? && c.status.value.error.Some? && c.status.value.error.value.message == message
    then Done(true, true)
    else AtErrorStatus(c, message)
  }

  function ToRemoveFinalizer(c: Content): Pc {
    if ContentBound in c.finalizers then AtRemoveFinalizer(c) else Done(false, false)
  }

  /** The call made at `pc` can be answered by `a`; `stored` is the content the server has, if any. */
  predicate Fits(pc: Pc, stored: Option<Content>, a: Answer) {
    match pc
    case AtSetBeingCreated(_, _) => ApiAnswer(stored.Some?, a)
    case AtCreateSnapshot(c) =>
      if c.refUid == "" || c.volumeHandle.None? then a.CreateFailed? && a.error.NotGrpc?
      else a.Created? || a.CreateFailed?
    case AtRecord(_, _, _, _, _, _, _) => ApiAnswer(stored.Some?, a)
    case AtRemoveBeingCreated(c, _) => ApiAnswer(stored.Some? && BeingCreated in stored.value.annotations, a)
    case AtGetStatus(_) => a.StatusRead? || a.StatusFailed?
    case AtErrorStatus(c, _) => ApiAnswer(stored.Some? && (c.status.Some? ==> stored.value.status.Some?), a)
    case AtDeleteSnapshot(_) => a.SnapshotDeleted? || a.DeleteFailed?
    case AtClearStatus(_) => ApiAnswer(stored.Some?, a)
    case AtRemoveFinalizer(_) => ApiAnswer(stored.Some?, a)
    case Done(_, _) => false
  }

  /** A write on an object that is not there, or whose target is missing, can only be rejected. */
  predicate ApiAnswer(possible: bool, a: Answer) {
    a.ApiRejected? || (possible && (a.ApiOk? || a.ApiLost?))
  }

  predicate Applied(a: Answer) {
    a.ApiOk? || a.ApiLost?
  }

  /** The stored content after the call at `pc`; only the API writes change it. */
  function Written(pc: Pc, stored: Content, a: Answer): Content
    requires Fits(pc, Some(stored), a)
  {
    if !Applied(a) then stored
    else
      match pc
      case AtSetBeingCreated(_, _) => WithBeingCreated(stored)
      case AtRecord(_, _, h, ready, created, size, groupId) =>
        stored.(status := Some(MergeStatus(stored.status, h, ready, created, size, groupId)))
      case AtRemoveBeingCreated(_, _) => WithoutBeingCreated(stored)
      case AtErrorStatus(c, message) => WithErrorStatus(stored, c, a.now, message)
      case AtClearStatus(_) => WithClearedStatus(stored)
      case AtRemoveFinalizer(c) => stored.(finalizers := Without(c.finalizers, ContentBound))
      case _ => stored
  }

  /** Where the pass goes next; `stored` is the content after the call. */
  function Continue(pc: Pc, stored: Option<Content>, a: Answer): Pc
    requires a.ApiOk? ==> stored.Some? || pc.AtRemoveFinalizer?
  {
    match pc
    case AtSetBeingCreated(c, paramsOk) =>
      if a.ApiOk? then AfterBeingCreated(stored.value, paramsOk) else ToErrorStatus(c, AnnotateFailed)
    case AtCreateSnapshot(c) =>
      if a.Created? then AtRecord(c, true, a.handle, a.ready, a.created, a.size, "")
      else if a.CreateFailed? then
        if IsFinalError(a.error) && BeingCreated in c.annotations then AtRemoveBeingCreated(c, AfterFinalError(a.message))
        else ToErrorStatus(c, a.message)
      else Done(true, true)
    case AtRecord(c, byCreate, _, _, _, _, _) =>
      if !a.ApiOk? then ToErrorStatus(c, RecordFailed)
      else if byCreate && BeingCreated in stored.value.annotations then AtRemoveBeingCreated(stored.value, AfterCreate)
      else Done(!IsReady(stored.value), false)
    case AtRemoveBeingCreated(c, why) =>
      (match why
       case AfterCreate => if a.ApiOk? then Done(!IsReady(stored.value), false) else ToErrorStatus(c, UnannotateFailed)
       case AfterFinalError(message) =>
         if a.ApiOk? then ToErrorStatus(stored.value, message) else ToErrorStatus(c, UnannotateFailed)
       case AlreadyReady => if a.ApiOk? then Done(false, false) else Done(true, true))
    case AtGetStatus(c) =>
      if a.StatusRead? && RpcHandle(c).Some? then
        var id := if c.snapshotHandle.Some? then c.snapshotHandle.value else RpcHandle(c).value;
        AtRecord(c, false, id, a.ready, a.created, a.size, a.groupId)
      else if a.StatusFailed? then ToErrorStatus(c, a.message)
      else Done(true, true)
    case AtErrorStatus(_, _) => Done(true, true)
    case AtDeleteSnapshot(c) => if a.SnapshotDeleted? then AtClearStatus(c) else Done(true, true)
    case AtClearStatus(_) => if a.ApiOk? then ToRemoveFinalizer(stored.value) else Done(true, true)
    case AtRemoveFinalizer(_) => if a.ApiOk? then Done(false, false) else Done(true, true)
    case Done(_, _) => pc
  }

  // ---- Facts about one content ----

  /** The whole pass measured: every call brings it closer to Done. */
  function Distance(pc: Pc): nat {
    match pc
    case AtSetBeingCreated(_, _) => 6
    case AtCreateSnapshot(_) => 5
    case AtGetStatus(_) => 5
    case AtRecord(_, _, _, _, _, _, _) => 4
    case AtRemoveBeingCreated(_, _) => 3
    case AtErrorStatus(_, _) => 1
    case AtDeleteSnapshot(_) => 3
    case AtClearStatus(_) => 2
    case AtRemoveFinalizer(_) => 1
    case Done(_, _) => 0
  }

  /** A pass ends after at most six calls, whatever the answers are. */
  lemma PassesEnd(pc: Pc, stored: Option<Content>, a: Answer)
    requires a.ApiOk? ==> stored.Some? || pc.AtRemoveFinalizer?
    requires !pc.Done?
    ensures Distance(Continue(pc, stored, a)) < Distance(pc) <= 6
  {}

  // ---- A pass run to its end without interference ----

  /** What the k-th call comes back with. */
  type Env = (nat, Pc, Option<Content>) -> Answer

  /** The answer nobody can refuse: the call failed and nothing happened. */
  function Failure(pc: Pc): Answer {
    if pc.AtCreateSnapshot? then CreateFailed(NotGrpc, CreationFailed)
    else if pc.AtGetStatus? then StatusFailed(CreationFailed)
    else if pc.AtDeleteSnapshot? then DeleteFailed(false)
    else ApiRejected
  }

  function Reply(env: Env, k: nat, pc: Pc, stored: Option<Content>): (a: Answer)
    requires !pc.Done?
    ensures Fits(pc, stored, a)
  {
    if Fits(pc, stored, env(k, pc, stored)) then env(k, pc, stored) else Failure(pc)
  }

  /** The content as the call leaves it, before the server drops a deleted content without finalizers. */
  function Touched(pc: Pc, stored: Option<Content>, a: Answer): Option<Content>
    requires Fits(pc, stored, a)
  {
    if stored.Some? then Some(Written(pc, stored.value, a)) else None
  }

  function Kept(c: Option<Content>): Option<Content> {
    if c.Some? && c.value.deleted && c.value.finalizers == [] then None else c
  }

  datatype Ended = Ended(stored: Option<Content>, pc: Pc, calls: nat)

  function Finish(env: Env, k: nat, pc: Pc, stored: Option<Content>): (r: Ended)
    ensures r.pc.Done?
    decreases Distance(pc)
  {
    if pc.Done? then Ended(stored, pc, k)
    else
      var a := Reply(env, k, pc, stored);
      var touched := Touched(pc, stored, a);
      PassesEnd(pc, touched, a);
      Finish(env, k + 1, Continue(pc, touched, a), Kept(touched))
  }

  lemma FinishAfterCall(env: Env, k: nat, pc: Pc, stored: Option<Content>)
    requires !pc.Done?
    ensures var a := Reply(env, k, pc, stored);
            Finish(env, k, pc, stored) == Finish(env, k + 1, Continue(pc, Touched(pc, stored, a), a), Kept(Touched(pc, stored, a)))
  {}
}
