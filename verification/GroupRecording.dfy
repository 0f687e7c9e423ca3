/**
 What a sidecar pass over a group content leaves on it when the API fails nothing: the driver's
 answer with the members it named, or the error, and nothing else changed.
 */
module GroupRecording {
  import opened Objects
  import opened Sidecar
  import opened Driver
  import opened GroupSidecar
  import opened GroupDraining

  /** The API accepts every write at time `now`; the driver gives `answer` to a creation or a question, and deletes. */
  ghost predicate GroupAnswering(env: GroupEnv, answer: GroupAnswer, now: int) {
    forall k: nat, pc: GroupPc, stored: Option<GroupContent> :: !pc.Finished? ==>
      env(k, pc, stored)
      == if pc.Creating? || pc.GettingStatus? then answer
         else if pc.Deleting? then GroupDeleted
         else if Possible(pc, stored, Ok(now)) then Ok(now) else Refused
  }

  /** Only status and being-created differ. */
  predicate SameGroupSpec(c: GroupContent, d: GroupContent) {
    d.(status := c.status, beingCreated := c.beingCreated) == c
  }

  // ---- The first call ----

  predicate ToldToDeleteGroup(c: GroupContent) {
    c.deleted && if c.handles.Some? && c.refUid == "" then true else c.beingDeleted && !c.beingCreated
  }

  predicate HasGroupToDelete(c: GroupContent) {
    c.policy == Delete && c.status.Some? && c.status.value.handle.Some?
  }

  predicate KnownGroupReady(c: GroupContent) {
    c.status.Some? && c.status.value.ready == Some(true)
  }

  /** A content that names its volumes and the handles of a group snapshot both is refused by the API. */
  predicate HasOneGroupSource(c: GroupContent) {
    (c.volumeHandles != []) != c.handles.Some?
  }

  lemma GroupPassBeginsIff(c: GroupContent, inp: GroupInputs)
    requires HasOneGroupSource(c)
    ensures BeginGroup(c, inp).Deleting? <==> ToldToDeleteGroup(c) && HasGroupToDelete(c) && inp.secretsOk
    ensures BeginGroup(c, inp).RemovingFinalizer? <==>
              ToldToDeleteGroup(c) && !HasGroupToDelete(c) && GroupContentBound in c.finalizers
    ensures BeginGroup(c, inp).GettingStatus? <==>
              && !ToldToDeleteGroup(c) && !KnownGroupReady(c) && c.handles.Some?
              && (c.className.Some? ==> inp.classFound && inp.getSecretsOk)
    ensures BeginGroup(c, inp).SettingBeingCreated? || BeginGroup(c, inp).Creating? <==>
              && !ToldToDeleteGroup(c) && !KnownGroupReady(c) && c.volumeHandles != []
              && c.className.Some? && inp.classFound && inp.secretsOk && (c.beingCreated ==> inp.paramsOk)
    ensures BeginGroup(c, inp).RemovingBeingCreated? <==> !ToldToDeleteGroup(c) && KnownGroupReady(c) && c.beingCreated
  {}

  // ---- Creation ----

  predicate GroupCreatable(c: GroupContent) {
    && c.volumeHandles != [] && c.handles.None? && c.refUid != "" && c.className.Some?
    && !ToldToDeleteGroup(c) && !KnownGroupReady(c) && (c.deleted ==> c.finalizers != [])
  }

  predicate UsableInputs(inp: GroupInputs) {
    inp.classFound && inp.secretsOk && inp.paramsOk
  }

  /** What the driver said is on the status: its handle, time and members where there were none, its readiness in any case. */
  predicate GroupHolds(prior: Option<GroupStatus>, st: Option<GroupStatus>, handle: string, ready: bool, created: int, infos: seq<MemberInfo>) {
    var p := if prior.Some? then prior.value else EMPTY_GROUP_STATUS;
    && st.Some? && st.value.ready == Some(ready)
    && st.value.handle == (if p.handle.Some? then p.handle else Some(handle))
    && st.value.created == (if p.created.Some? then p.created else Some(created))
    && st.value.infos == (if p.infos != [] then p.infos else infos)
    && st.value.error == (if ready && p.ready != Some(true) then None else p.error)
  }

  predicate GroupFailedWith(prior: Option<GroupStatus>, st: Option<GroupStatus>, now: int, m: Message) {
    var p := if prior.Some? then prior.value else EMPTY_GROUP_STATUS;
    && st.Some? && st.value.error == Some(StatusError(Some(now), m)) && st.value.ready == Some(false)
    && st.value.handle == p.handle && st.value.created == p.created && st.value.infos == p.infos
  }

  predicate GroupSays(st: Option<GroupStatus>, m: Message) {
    st.Some? && st.value.error.Some? && st.value.error.value.message == m
  }

  /** Written, unless the message is there already. */
  predicate Reported(prior: Option<GroupStatus>, st: Option<GroupStatus>, now: int, m: Message) {
    if GroupSays(prior, m) then st == prior else GroupFailedWith(prior, st, now, m)
  }

  lemma {:induction false} GroupErrorIsWritten(c: GroupContent, m: Message, env: GroupEnv, inp: GroupInputs, answer: GroupAnswer, k: nat, now: int)
    requires GroupAnswering(env, answer, now) && (c.deleted ==> c.finalizers != [])
    ensures var r := FinishGroup(env, inp, k, Reporting(c, m), Some(c)).stored;
            r.Some? && r.value.(status := c.status) == c && Reported(c.status, r.value.status, now, m)
  {
    if !GroupSays(c.status, m) {
      FinishGroupAfterCall(env, inp, k, ReportingError(c, m), Some(c));
    }
  }

  /** The pass gets to the creation, announced. */
  lemma {:induction false} GroupPassCreates(c: GroupContent, inp: GroupInputs, env: GroupEnv, answer: GroupAnswer, now: int) returns (k: nat)
    requires GroupCreatable(c) && GroupAnswering(env, answer, now) && UsableInputs(inp)
    ensures var d := c.(beingCreated := true);
            FinishGroup(env, inp, 0, BeginGroup(c, inp), Some(c)) == FinishGroup(env, inp, k, Creating(d), Some(d))
  {
    k := 0;
    if !c.beingCreated {
      FinishGroupAfterCall(env, inp, 0, SettingBeingCreated(c, true), Some(c));
      k := 1;
    }
  }

  lemma {:induction false} GroupCreationIsRecorded(
    c: GroupContent, inp: GroupInputs, env: GroupEnv, handle: string, ready: bool, created: int, infos: seq<MemberInfo>, now: int)
    requires GroupCreatable(c) && UsableInputs(inp) && GroupAnswering(env, GroupCreated(handle, ready, created, infos), now)
    ensures var r := FinishGroup(env, inp, 0, BeginGroup(c, inp), Some(c)).stored;
            && r.Some? && SameGroupSpec(c, r.value) && !r.value.beingCreated
            && GroupHolds(c.status, r.value.status, handle, ready, created, infos)
  {
    var answer := GroupCreated(handle, ready, created, infos);
    var k := GroupPassCreates(c, inp, env, answer, now);
    AnsweredGroupCreation(c.(beingCreated := true), inp, env, k, answer, now);
  }

  lemma {:induction false} AnsweredGroupCreation(c: GroupContent, inp: GroupInputs, env: GroupEnv, k: nat, a: GroupAnswer, now: int)
    requires c.beingCreated && c.refUid != "" && c.volumeHandles != [] && (c.deleted ==> c.finalizers != [])
    requires a.GroupCreated? && GroupAnswering(env, a, now)
    ensures var r := FinishGroup(env, inp, k, Creating(c), Some(c)).stored;
            && r.Some? && SameGroupSpec(c, r.value) && !r.value.beingCreated
            && GroupHolds(c.status, r.value.status, a.handle, a.ready, a.created, a.infos)
  {
    FinishGroupAfterCall(env, inp, k, Creating(c), Some(c));
    GroupAnswerIsRecorded(c, inp, env, k + 1, a, now);
  }

  lemma {:induction false} GroupAnswerIsRecorded(c: GroupContent, inp: GroupInputs, env: GroupEnv, k: nat, a: GroupAnswer, now: int)
    requires c.beingCreated && (c.deleted ==> c.finalizers != []) && a.GroupCreated? && GroupAnswering(env, a, now)
    ensures var r := FinishGroup(env, inp, k, Recording(c, a.handle, a.ready, a.created, a.infos, true), Some(c)).stored;
            && r.Some? && SameGroupSpec(c, r.value) && !r.value.beingCreated
            && GroupHolds(c.status, r.value.status, a.handle, a.ready, a.created, a.infos)
  {
    FinishGroupAfterCall(env, inp, k, Recording(c, a.handle, a.ready, a.created, a.infos, true), Some(c));
    var d := c.(status := Some(MergeGroupStatus(c.status, a.handle, a.ready, a.created, a.infos)));
    FinishGroupAfterCall(env, inp, k + 1, RemovingBeingCreated(d, AfterCreate), Some(d));
  }

  /** A failed creation is reported; its announcement is taken back exactly if the driver has given up. */
  lemma {:induction false} GroupFailureIsRecorded(c: GroupContent, inp: GroupInputs, env: GroupEnv, error: RpcError, m: Message, now: int)
    requires GroupCreatable(c) && UsableInputs(inp) && GroupAnswering(env, GroupFailed(error, m), now)
    ensures var r := FinishGroup(env, inp, 0, BeginGroup(c, inp), Some(c)).stored;
            && r.Some? && SameGroupSpec(c, r.value) && (r.value.beingCreated <==> !HasFailed(error))
            && Reported(c.status, r.value.status, now, m)
  {
    var k := GroupPassCreates(c, inp, env, GroupFailed(error, m), now);
    FailedGroupCreation(c.(beingCreated := true), inp, env, k, error, m, now);
  }

  lemma {:induction false} RefusedGroupCreation(
    c: GroupContent, inp: GroupInputs, env: GroupEnv, k: nat, a: GroupAnswer, m: Message, now: int)
    requires c.beingCreated && (c.deleted ==> c.finalizers != []) && GroupAnswering(env, a, now)
    ensures var r := FinishGroup(env, inp, k, RemovingBeingCreated(c, AfterFinalError(m)), Some(c)).stored;
            r.Some? && SameGroupSpec(c, r.value) && !r.value.beingCreated && Reported(c.status, r.value.status, now, m)
  {
    FinishGroupAfterCall(env, inp, k, RemovingBeingCreated(c, AfterFinalError(m)), Some(c));
    GroupErrorIsWritten(c.(beingCreated := false), m, env, inp, a, k + 1, now);
  }

  lemma {:induction false} FailedGroupCreation(
    c: GroupContent, inp: GroupInputs, env: GroupEnv, k: nat, error: RpcError, m: Message, now: int)
    requires c.beingCreated && c.refUid != "" && c.volumeHandles != [] && (c.deleted ==> c.finalizers != [])
    requires GroupAnswering(env, GroupFailed(error, m), now)
    ensures var r := FinishGroup(env, inp, k, Creating(c), Some(c)).stored;
            && r.Some? && SameGroupSpec(c, r.value) && (r.value.beingCreated <==> !HasFailed(error))
            && Reported(c.status, r.value.status, now, m)
  {
    FinishGroupAfterCall(env, inp, k, Creating(c), Some(c));
    if IsFinalError(error) {
      RefusedGroupCreation(c, inp, env, k + 1, GroupFailed(error, m), m, now);
    } else {
      GroupErrorIsWritten(c, m, env, inp, GroupFailed(error, m), k + 1, now);
    }
  }

  /** Without class or secrets nothing is announced; bad parameters are found after the announcement. */
  lemma {:induction false} UnusableGroupInputIsRecorded(c: GroupContent, inp: GroupInputs, env: GroupEnv, answer: GroupAnswer, now: int)
    requires GroupCreatable(c) && !UsableInputs(inp) && GroupAnswering(env, answer, now)
    ensures var r := FinishGroup(env, inp, 0, BeginGroup(c, inp), Some(c)).stored;
            && r.Some? && SameGroupSpec(c, r.value)
            && (r.value.beingCreated <==> c.beingCreated || (inp.classFound && inp.secretsOk))
            && Reported(c.status, r.value.status, now, if inp.classFound && inp.secretsOk then BadParameters else NoInput)
  {
    if !inp.classFound || !inp.secretsOk {
      GroupErrorIsWritten(c, NoInput, env, inp, answer, 0, now);
    } else if c.beingCreated {
      GroupErrorIsWritten(c, BadParameters, env, inp, answer, 0, now);
    } else {
      FinishGroupAfterCall(env, inp, 0, SettingBeingCreated(c, false), Some(c));
      GroupErrorIsWritten(c.(beingCreated := true), BadParameters, env, inp, answer, 1, now);
    }
  }

  // ---- Imported group snapshots ----

  predicate GroupAsked(c: GroupContent) {
    && c.handles.Some? && c.volumeHandles == [] && !ToldToDeleteGroup(c) && !KnownGroupReady(c)
    && (c.deleted ==> c.finalizers != [])
  }

  lemma {:induction false} GroupStatusIsRecorded(c: GroupContent, inp: GroupInputs, env: GroupEnv, ready: bool, created: int, now: int)
    requires GroupAsked(c) && inp.classFound && inp.getSecretsOk && GroupAnswering(env, GroupStatusRead(ready, created), now)
    ensures var r := FinishGroup(env, inp, 0, BeginGroup(c, inp), Some(c)).stored;
            && r.Some? && r.value.(status := c.status) == c
            && GroupHolds(c.status, r.value.status, c.handles.value.0, ready, created, [])
  {
    assert BeginGroup(c, inp) == GettingStatus(c);
    ReadGroupStatus(c, inp, env, GroupStatusRead(ready, created), now);
  }

  lemma {:induction false} ReadGroupStatus(c: GroupContent, inp: GroupInputs, env: GroupEnv, a: GroupAnswer, now: int)
    requires c.handles.Some? && (c.deleted ==> c.finalizers != []) && a.GroupStatusRead? && GroupAnswering(env, a, now)
    ensures FinishGroup(env, inp, 0, GettingStatus(c), Some(c))
            == FinishGroup(env, inp, 1, Recording(c, c.handles.value.0, a.ready, a.created, [], false), Some(c))
    ensures var r := FinishGroup(env, inp, 0, GettingStatus(c), Some(c)).stored;
            && r.Some? && r.value.(status := c.status) == c
            && GroupHolds(c.status, r.value.status, c.handles.value.0, a.ready, a.created, [])
  {
    FinishGroupAfterCall(env, inp, 0, GettingStatus(c), Some(c));
    FinishGroupAfterCall(env, inp, 1, Recording(c, c.handles.value.0, a.ready, a.created, [], false), Some(c));
  }

  lemma {:induction false} GroupStatusErrorIsRecorded(c: GroupContent, inp: GroupInputs, env: GroupEnv, m: Message, now: int)
    requires GroupAsked(c) && GroupAnswering(env, GroupStatusFailed(m), now)
    ensures var r := FinishGroup(env, inp, 0, BeginGroup(c, inp), Some(c)).stored;
            && r.Some? && r.value.(status := c.status) == c
            && Reported(c.status, r.value.status, now,
                        if c.className.Some? && !(inp.classFound && inp.getSecretsOk) then NoClassOrSecret else m)
  {
    if c.className.Some? && !(inp.classFound && inp.getSecretsOk) {
      GroupErrorIsWritten(c, NoClassOrSecret, env, inp, GroupStatusFailed(m), 0, now);
    } else {
      FinishGroupAfterCall(env, inp, 0, GettingStatus(c), Some(c));
      GroupErrorIsWritten(c, m, env, inp, GroupStatusFailed(m), 1, now);
    }
  }

  // ---- Deletion ----

  /** The members named to the driver are those it once named itself, or else those of the administrator, in their order. */
  lemma MembersNamed(c: GroupContent)
    requires c.status.Some?
    ensures c.status.value.infos != [] ==>
              && |SnapshotIds(c)| == |c.status.value.infos|
              && forall i | 0 <= i < |SnapshotIds(c)| :: SnapshotIds(c)[i] == c.status.value.infos[i].snapshotHandle
    ensures c.status.value.infos == [] ==> SnapshotIds(c) == if c.handles.Some? then c.handles.value.1 else []
  {}

  /** So a group snapshot is deleted with the very members it was created with. */
  lemma {:induction false} CreatedMembersAreNamed(
    c: GroupContent, inp: GroupInputs, env: GroupEnv, handle: string, ready: bool, created: int, infos: seq<MemberInfo>, now: int)
    requires GroupCreatable(c) && UsableInputs(inp) && GroupAnswering(env, GroupCreated(handle, ready, created, infos), now)
    requires c.status.None? || c.status.value.infos == []
    ensures var r := FinishGroup(env, inp, 0, BeginGroup(c, inp), Some(c)).stored;
            && r.Some? && |SnapshotIds(r.value)| == |infos|
            && forall i | 0 <= i < |infos| :: SnapshotIds(r.value)[i] == infos[i].snapshotHandle
  {
    GroupCreationIsRecorded(c, inp, env, handle, ready, created, infos, now);
    MembersNamed(FinishGroup(env, inp, 0, BeginGroup(c, inp), Some(c)).stored.value);
  }

  /** Everything known of the group snapshot but its members is cleared, and if the cache takes that, the finalizer goes too. */
  lemma {:induction false} GroupDeletionIsRecorded(c: GroupContent, inp: GroupInputs, env: GroupEnv, answer: GroupAnswer, now: int)
    requires ToldToDeleteGroup(c) && HasGroupToDelete(c) && inp.secretsOk && SnapshotIds(c) != [] && c.finalizers != []
    requires GroupAnswering(env, answer, now)
    ensures var r := FinishGroup(env, inp, 0, BeginGroup(c, inp), Some(c)).stored;
            && (r.None? <==> inp.newer && forall f <- c.finalizers :: f == GroupContentBound)
            && (r.Some? ==>
                  && r.value.(status := c.status, finalizers := c.finalizers) == c
                  && r.value.finalizers == (if inp.newer then Without(c.finalizers, GroupContentBound) else c.finalizers)
                  && r.value.status == Some(EMPTY_GROUP_STATUS.(infos := c.status.value.infos)))
  {
    var d := c.(status := Some(EMPTY_GROUP_STATUS.(infos := c.status.value.infos)));
    FinishGroupAfterCall(env, inp, 0, Deleting(c), Some(c));
    FinishGroupAfterCall(env, inp, 1, Clearing(c), Some(c));
    assert Cleared(c) == d;
    assert c.finalizers[0] in c.finalizers;
    if inp.newer {
      ClearedGroupIsLetGo(d, inp, env, answer, 2, now);
    }
  }

  lemma {:induction false} ClearedGroupIsLetGo(c: GroupContent, inp: GroupInputs, env: GroupEnv, answer: GroupAnswer, k: nat, now: int)
    requires ToldToDeleteGroup(c) && !HasGroupToDelete(c) && c.finalizers != [] && GroupAnswering(env, answer, now)
    ensures var r := FinishGroup(env, inp, k, BeginGroup(c, inp), Some(c)).stored;
            && (r.None? <==> forall f <- c.finalizers :: f == GroupContentBound)
            && (r.Some? ==> r.value == c.(finalizers := Without(c.finalizers, GroupContentBound)))
  {
    var fs := Without(c.finalizers, GroupContentBound);
    assert fs != [] ==> fs[0] in fs;
    assert c.finalizers[0] in c.finalizers;
    if GroupContentBound in c.finalizers {
      FinishGroupAfterCall(env, inp, k, RemovingFinalizer(c), Some(c));
    }
  }

  /** Group writes the API refuses, or does not confirm, are reported in the same way. */
  lemma RefusedGroupWritesAreReported(pc: GroupPc, latest: Option<GroupContent>, a: GroupAnswer, inp: GroupInputs)
    requires a.Refused? || a.LostAnswer?
    ensures pc.SettingBeingCreated? ==> NextGroup(pc, latest, a, inp) == Reporting(pc.copy, AnnotateFailed)
    ensures pc.Recording? ==> NextGroup(pc, latest, a, inp) == Reporting(pc.copy, RecordFailed)
    ensures pc.RemovingBeingCreated? && !pc.why.AlreadyReady? ==> NextGroup(pc, latest, a, inp) == Reporting(pc.copy, UnannotateFailed)
  {}
}
