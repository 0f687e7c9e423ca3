/**
 How the status of a VolumeSnapshot follows the status of its content.
 */
module Mirror {
  import opened Objects

  /** The status to write, and whether the code decides to write it. */
  datatype Mirrored = Mirrored(status: SnapshotStatus, updated: bool)

  function ReadyOf(st: Option<ContentStatus>): bool {
    st.Some? && st.value.ready == Some(true)
  }

  function CreatedOf(st: Option<ContentStatus>): Option<int> {
    if st.Some? then st.value.created else None
  }

  function SizeOf(st: Option<ContentStatus>): Option<int> {
    if st.Some? then st.value.size else None
  }

  function ErrorOf(st: Option<ContentStatus>): Option<StatusError> {
    if st.Some? then st.value.error else None
  }

  predicate Timestamped(e: Option<StatusError>) {
    e.Some? ==> e.value.time.Some?
  }

  /** `name` is the content's name and `group` the name of the group snapshot, or empty. */
  function MirrorStatus(prior: Option<SnapshotStatus>, name: string, st: Option<ContentStatus>, group: string): Mirrored {
    match prior
    case None =>
      Mirrored(
        SnapshotStatus(Some(name), Some(ReadyOf(st)), CreatedOf(st), SizeOf(st), ErrorOf(st), if group != "" then Some(group) else None),
        true)
    case Some(p) =>
      var newReady := p.ready != Some(ReadyOf(st));
      var error := if newReady && ReadyOf(st) then None else p.error;
      var newSize := SizeOf(st).Some? && (p.size.None? || (p.size == Some(0) && SizeOf(st).value > 0));
      var newError :=
        || (error.None? && ErrorOf(st).Some?)
        || (error.Some? && ErrorOf(st).Some? && error.value.time.Some? && ErrorOf(st).value.time.Some?)
        || (error.Some? && ErrorOf(st).None?);
      Mirrored(
        SnapshotStatus(
          if p.bound.None? then Some(name) else p.bound,
          Some(ReadyOf(st)),
          if p.created.None? then CreatedOf(st) else p.created,
          if newSize then SizeOf(st) else p.size,
          if newError then ErrorOf(st) else error,
          if p.groupName.None? && group != "" then Some(group) else p.groupName),
        p.bound.None? || (p.created.None? && CreatedOf(st).Some?) || newReady || newSize || newError || (p.groupName.None? && group != ""))
  }

  /** Readiness is the content's; what was written once stays. */
  lemma MirrorFollowsAndKeeps(prior: Option<SnapshotStatus>, name: string, st: Option<ContentStatus>, group: string)
    ensures var m := MirrorStatus(prior, name, st, group).status;
            && (m.ready == Some(true) <==> st.Some? && st.value.ready == Some(true)) && m.ready.Some?
            && m.bound == (if prior.Some? && prior.value.bound.Some? then prior.value.bound else Some(name))
            && (prior.Some? && prior.value.created.Some? ==> m.created == prior.value.created)
            && (prior.Some? && prior.value.groupName.Some? ==> m.groupName == prior.value.groupName)
            && (prior.Some? && prior.value.size.Some? && prior.value.size != Some(0) ==> m.size == prior.value.size)
  {}

  /** What the snapshot does not know yet it takes from the content: creation time, size and the group's name. */
  lemma MirrorFillsIn(prior: Option<SnapshotStatus>, name: string, st: Option<ContentStatus>, group: string)
    ensures var m := MirrorStatus(prior, name, st, group).status;
            var p := if prior.Some? then prior.value else EMPTY_SNAPSHOT_STATUS;
            var c := if st.Some? then st.value else EMPTY_CONTENT_STATUS;
            && (p.created.None? ==> m.created == c.created)
            && (p.size.None? ==> m.size == c.size)
            && (p.size == Some(0) ==> m.size == if c.size.Some? && c.size.value > 0 then c.size else p.size)
            && (p.groupName.None? ==> m.groupName == if group == "" then None else Some(group))
  {}

  /**
   The error is the content's, except in one case: both sides hold an error, not the same one, one of
   the two has no time, and the snapshot is not just becoming ready. Then the snapshot keeps its own.
   */
  lemma ErrorIsMirroredIff(prior: Option<SnapshotStatus>, name: string, st: Option<ContentStatus>, group: string)
    ensures var m := MirrorStatus(prior, name, st, group).status;
            var e := if st.Some? then st.value.error else None;
            && (m.error == e
                <==> !(prior.Some? && prior.value.error.Some? && e.Some? && prior.value.error != e
                       && (prior.value.error.value.time.None? || e.value.time.None?)
                       && (prior.value.ready == Some(true) || st.value.ready != Some(true))))
            && (m.error != e ==> m.error == prior.value.error)
  {}

  /**
   An error without a time on one side stays for good: neither controller writes one, but the field is
   optional, and any other client that may write the status can leave it out.
   */
  lemma UntimedErrorSticks(before: Message, m: Message, now: int, name: string, ready: Option<bool>)
    requires before != m && ready != Some(true)
    ensures var prior := EMPTY_SNAPSHOT_STATUS.(bound := Some(name), ready := ready, error := Some(StatusError(None, before)));
            var st := EMPTY_CONTENT_STATUS.(ready := ready, error := Some(StatusError(Some(now), m)));
            var mirrored := MirrorStatus(Some(prior), name, Some(st), "").status;
            mirrored.error == prior.error && mirrored.error != st.error
  {}

  /** A missing status and an empty one come out alike. */
  lemma MissingStatusIsEmptyStatus(name: string, st: Option<ContentStatus>, group: string)
    ensures MirrorStatus(None, name, st, group) == MirrorStatus(Some(EMPTY_SNAPSHOT_STATUS), name, st, group)
  {}

  /** When nothing is written the status already is the one computed. */
  lemma NothingToWrite(prior: Option<SnapshotStatus>, name: string, st: Option<ContentStatus>, group: string)
    requires !MirrorStatus(prior, name, st, group).updated
    ensures prior == Some(MirrorStatus(prior, name, st, group).status)
  {}

  /** Mirroring the same content again changes nothing, and writes again only while both hold a timestamped error. */
  lemma MirroringTwice(prior: Option<SnapshotStatus>, name: string, st: Option<ContentStatus>, group: string)
    ensures var once := MirrorStatus(prior, name, st, group).status;
            var twice := MirrorStatus(Some(once), name, st, group);
            && twice.status == once
            && (twice.updated <==> once.error.Some? && ErrorOf(st).Some? && Timestamped(once.error) && Timestamped(ErrorOf(st)))
  {}
}
