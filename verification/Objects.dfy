/**
 The API objects the two snapshot controllers coordinate through, and the small
 predicates both of them use to read those objects. A pointer field of the API
 types is an Option; a deletion timestamp is the flag `deleted`.
 */
module Objects {

  datatype Option<+T> = None | Some(value: T)

  /** A namespaced name. */
  datatype Key = Key(namespace: string, name: string)

  datatype DeletionPolicy = Delete | Retain

  datatype Finalizer =
    | ContentBound | SnapshotBound | SnapshotAsSource | SnapshotInGroup | ClaimAsSource | GroupBound | GroupContentBound
    | OtherFinalizer(name: string)

  datatype AnnotationKey =
    | BeingCreated | BeingDeleted | GroupHandle | DeletionSecretName | DeletionSecretNamespace
    | OtherAnnotation(name: string)

  type Annotations = map<AnnotationKey, string>

  /** Error messages; those the controllers compose themselves are kept apart by their occasion. */
  datatype Message =
    | Text(text: string)
    | ClassMissing | NoClassOrSecret | NoInput | BadParameters | AnnotateFailed | UnannotateFailed | RecordFailed
    | SourceInvalid | ContentMissing | ContentMismatch | ContentMisbound | HandleSet | CreationFailed | BindFailed
    | StatusUpdateFailed

  datatype StatusError = StatusError(time: Option<int>, message: Message)

  /** Status of a VolumeSnapshotContent. */
  datatype ContentStatus = ContentStatus(
    handle: Option<string>,
    ready: Option<bool>,
    created: Option<int>,
    size: Option<int>,
    error: Option<StatusError>,
    groupHandle: Option<string>)

  /** A VolumeSnapshotContent. An empty `refUid` means the content is not bound yet. */
  datatype Content = Content(
    refKey: Key,
    refUid: string,
    volumeHandle: Option<string>,
    snapshotHandle: Option<string>,
    policy: DeletionPolicy,
    driver: string,
    className: Option<string>,
    deleted: bool,
    finalizers: seq<Finalizer>,
    annotations: Annotations,
    status: Option<ContentStatus>)

  /** Status of a VolumeSnapshot. */
  datatype SnapshotStatus = SnapshotStatus(
    bound: Option<string>,
    ready: Option<bool>,
    created: Option<int>,
    size: Option<int>,
    error: Option<StatusError>,
    groupName: Option<string>)

  /** A VolumeSnapshot; `parent` is the group snapshot named by its first group owner reference. */
  datatype Snapshot = Snapshot(
    uid: string,
    claimName: Option<string>,
    contentName: Option<string>,
    className: Option<string>,
    parent: Option<string>,
    deleted: bool,
    finalizers: seq<Finalizer>,
    status: Option<SnapshotStatus>)

  datatype ClaimPhase = Pending | Bound | Lost

  /** A PersistentVolumeClaim; `restores` names the VolumeSnapshot it is being filled from. */
  datatype Claim = Claim(
    phase: ClaimPhase,
    restores: Option<string>,
    deleted: bool,
    finalizers: seq<Finalizer>)

  const EMPTY_CONTENT_STATUS := ContentStatus(None, None, None, None, None, None)
  const EMPTY_SNAPSHOT_STATUS := SnapshotStatus(None, None, None, None, None, None)

  // ---- Finalizer lists ----

  /** The list without any occurrence of `f`, in the same order. */
  function Without(fs: seq<Finalizer>, f: Finalizer): (r: seq<Finalizer>)
    ensures f !in r
    ensures forall g :: g in r <==> g in fs && g != f
    ensures f !in fs ==> r == fs
  {
    if fs == [] then []
    else if fs[0] == f then Without(fs[1..], f) else [fs[0]] + Without(fs[1..], f)
  }

  lemma {:induction false} WithoutAppend(fs: seq<Finalizer>, g: Finalizer, f: Finalizer)
    ensures Without(fs + [g], f) == Without(fs, f) + (if g == f then [] else [g])
  {
    if fs == [] {
      assert fs + [g] == [g];
    } else {
      WithoutAppend(fs[1..], g, f);
      assert (fs + [g])[1..] == fs[1..] + [g];
    }
  }

  /** The loop that rebuilds a string list without one of its values. */
  method RemoveString(slice: seq<Finalizer>, s: Finalizer) returns (newSlice: seq<Finalizer>)
    ensures newSlice == Without(slice, s)
  {
    newSlice := [];
    for i := 0 to |slice|
      invariant newSlice == Without(slice[..i], s)
    {
      WithoutAppend(slice[..i], slice[i], s);
      assert slice[..i] + [slice[i]] == slice[..i + 1];
      if slice[i] == s {
        continue;
      }
      newSlice := newSlice + [slice[i]];
    }
    assert slice[..|slice|] == slice;
  }

  // ---- Predicates on contents ----

  predicate IsGroupMember(c: Content) {
    GroupHandle in c.annotations
  }

  predicate IsReady(c: Content) {
    c.status.Some? && c.status.value.ready == Some(true)
  }

  function Handle(c: Content): Option<string> {
    if c.status.Some? then c.status.value.handle else None
  }

  function GroupHandleOf(c: Content): Option<string> {
    if c.status.Some? then c.status.value.groupHandle else None
  }

  predicate NeedsContentFinalizer(c: Content) {
    !c.deleted && ContentBound !in c.finalizers
  }

  /** The content points back at this very snapshot: name, namespace and UID. */
  predicate RefersTo(c: Content, key: Key, s: Snapshot) {
    c.refKey == key && c.refUid == s.uid
  }

  // ---- Predicates on snapshots ----

  const CONTENT_PREFIX := "snapcontent-"

  function DynamicContentName(uid: string): string {
    CONTENT_PREFIX + uid
  }

  lemma DynamicContentNameInjective(u: string, v: string)
    requires DynamicContentName(u) == DynamicContentName(v)
    ensures u == v
  {
    assert u == (CONTENT_PREFIX + u)[|CONTENT_PREFIX|..];
    assert v == (CONTENT_PREFIX + v)[|CONTENT_PREFIX|..];
  }

  predicate IsSnapshotReady(s: Snapshot) {
    s.status.Some? && s.status.value.ready == Some(true)
  }

  predicate IsBoundNameSet(s: Snapshot) {
    s.status.Some? && s.status.value.bound.Some? && s.status.value.bound.value != ""
  }

  predicate IsDeletionCandidate(s: Snapshot) {
    s.deleted && (SnapshotAsSource in s.finalizers || SnapshotBound in s.finalizers)
  }

  predicate NeedsSourceFinalizer(s: Snapshot) {
    !s.deleted && SnapshotAsSource !in s.finalizers
  }

  predicate NeedsBoundFinalizer(s: Snapshot) {
    !s.deleted && SnapshotBound !in s.finalizers && IsBoundNameSet(s)
  }

  /** The content a deleted snapshot is torn down with: its bound name, or else the fixed dynamic name. */
  function DeletionContentName(s: Snapshot): string {
    var bound := if s.status.Some? && s.status.value.bound.Some? then s.status.value.bound.value else "";
    if bound == "" && s.claimName.Some? then DynamicContentName(s.uid) else bound
  }
}
