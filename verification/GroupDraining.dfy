/**
 A deleted group content drains in the sidecar: after at most three passes without faults it is
 gone, exactly unless it is stuck.
 */
module GroupDraining {
  import opened Objects
  import opened Sidecar
  import opened Driver
  import opened GroupSidecar

  // ---- The surroundings ----

  /** Every call is answered, and a driver that creates a group snapshot, or finds it already created, names its members. */
  ghost predicate GroupCooperative(env: GroupEnv) {
    forall k: nat, pc: GroupPc, stored: Option<GroupContent> :: !pc.Finished? ==>
      Possible(pc, stored, env(k, pc, stored)) && GroupCooperates(pc, stored, env(k, pc, stored))
  }

  predicate GroupCooperates(pc: GroupPc, stored: Option<GroupContent>, a: GroupAnswer) {
    match pc
    case Creating(c) =>
      c.refUid != "" && c.volumeHandles != [] ==>
        (a.GroupCreated? && a.infos != []) || (a.GroupFailed? && HasFailed(a.error) && GroupHandleIn(c).None?)
    case GettingStatus(_) => a.GroupStatusRead?
    case Deleting(c) => SnapshotIds(c) != [] ==> a.GroupDeleted?
    case _ => Possible(pc, stored, Ok(0)) ==> a.Ok?
  }

  // ---- A content on its way out ----

  /** A deleted Delete-policy content with nothing but the controllers' own finalizer; being-created is for dynamic ones. */
  predicate GroupCondemned(c: GroupContent) {
    && c.deleted && c.policy == Delete && c.finalizers != [] && (forall f <- c.finalizers :: f == GroupContentBound)
    && (if c.beingCreated then c.beingDeleted && c.refUid != "" && c.volumeHandles != [] && c.handles.None?
        else ShouldDeleteGroup(c))
  }

  predicate CanCreateGroup(c: GroupContent, inp: GroupInputs) {
    c.className.Some? && inp.classFound && inp.secretsOk && inp.paramsOk
  }

  /** The announcement can never be taken back: the call it announces cannot be sent. */
  predicate GroupWaits(c: GroupContent, inp: GroupInputs) {
    c.beingCreated && !IsGroupReady(c) && !CanCreateGroup(c, inp)
  }

  /** DeleteGroupSnapshot cannot be sent: the secrets are missing, or the members are. */
  predicate Undeletable(c: GroupContent, inp: GroupInputs) {
    GroupHandleIn(c).Some? && (!inp.secretsOk || SnapshotIds(c) == [])
  }

  /** A retry of the creation may still tell the members. */
  predicate GroupStuck(c: GroupContent, inp: GroupInputs) {
    GroupWaits(c, inp) || (Undeletable(c, inp) && (c.beingCreated ==> IsGroupReady(c)))
  }

  /** The content after one pass, and after as many as there are surroundings. */
  function AfterPass(c: Option<GroupContent>, inp: GroupInputs, env: GroupEnv): Option<GroupContent> {
    if c.None? then None else FinishGroup(env, inp, 0, BeginGroup(c.value, inp), c).stored
  }

  function AfterPasses(c: Option<GroupContent>, inp: GroupInputs, envs: seq<GroupEnv>): Option<GroupContent>
    decreases |envs|
  {
    if envs == [] then c else AfterPasses(AfterPass(c, inp, envs[0]), inp, envs[1..])
  }

  lemma FinishGroupAfterCall(env: GroupEnv, inp: GroupInputs, k: nat, pc: GroupPc, stored: Option<GroupContent>)
    requires !pc.Finished?
    ensures var a := GroupReply(env, k, pc, stored);
            var latest := LatestGroup(pc, stored, a);
            FinishGroup(env, inp, k, pc, stored) == FinishGroup(env, inp, k + 1, NextGroup(pc, latest, a, inp), KeptGroup(latest))
  {}

  lemma {:induction false} OnlyOwnGroupFinalizer(fs: seq<Finalizer>)
    requires forall f <- fs :: f == GroupContentBound
    ensures Without(fs, GroupContentBound) == []
  {
    if fs != [] {
      assert fs[0] in fs && forall f <- fs[1..] :: f in fs;
      OnlyOwnGroupFinalizer(fs[1..]);
    }
  }

  // ---- Being-created is off ----

  lemma LastGroupFinalizer(c: GroupContent, inp: GroupInputs, env: GroupEnv, k: nat)
    requires GroupCondemned(c) && !c.beingCreated && GroupHandleIn(c).None? && GroupCooperative(env)
    ensures FinishGroup(env, inp, k, BeginGroup(c, inp), Some(c)).stored == None
  {
    OnlyOwnGroupFinalizer(c.finalizers);
    assert c.finalizers[0] in c.finalizers;
    FinishGroupAfterCall(env, inp, k, RemovingFinalizer(c), Some(c));
  }

  /** Deletion and clearing; the cleared content is synced at once if the cache takes it. */
  lemma GroupSnapshotDeleted(c: GroupContent, inp: GroupInputs, env: GroupEnv, k: nat)
    requires GroupCondemned(c) && !c.beingCreated && GroupHandleIn(c).Some? && !Undeletable(c, inp) && GroupCooperative(env)
    ensures FinishGroup(env, inp, k, BeginGroup(c, inp), Some(c)).stored == if inp.newer then None else Some(Cleared(c))
  {
    FinishGroupAfterCall(env, inp, k, Deleting(c), Some(c));
    FinishGroupAfterCall(env, inp, k + 1, Clearing(c), Some(c));
    if inp.newer {
      LastGroupFinalizer(Cleared(c), inp, env, k + 2);
    }
  }

  /** One pass deletes the content exactly when the driver never had it, or it can be named to the driver with its members. */
  lemma GroupDeletedInOnePassIff(c: GroupContent, inp: GroupInputs, env: GroupEnv, k: nat)
    requires GroupCondemned(c) && !c.beingCreated && inp.newer && GroupCooperative(env)
    ensures FinishGroup(env, inp, k, BeginGroup(c, inp), Some(c)).stored == None
            <==> GroupHandleIn(c).None? || (inp.secretsOk && SnapshotIds(c) != [])
  {
    if GroupHandleIn(c).None? {
      LastGroupFinalizer(c, inp, env, k);
    } else if !Undeletable(c, inp) {
      GroupSnapshotDeleted(c, inp, env, k);
    } else if inp.secretsOk {
      MemberlessGroupsStay(env, inp, k, c);
    }
  }

  // ---- Being-created is on ----

  /** What a pass must achieve: the announcement is taken back, and nothing became undeletable. */
  ghost predicate GroupSettles(c: GroupContent, r: Option<GroupContent>) {
    && r.Some? && GroupCondemned(r.value) && !r.value.beingCreated
    && (IsGroupReady(c) ==> r.value.status == c.status)
    && (!IsGroupReady(c) && GroupHandleIn(r.value).Some? ==> SnapshotIds(r.value) != [])
  }

  lemma GroupPassSettles(c: GroupContent, inp: GroupInputs, env: GroupEnv, k: nat)
    requires GroupCondemned(c) && c.beingCreated && !GroupWaits(c, inp) && GroupCooperative(env)
    ensures GroupSettles(c, FinishGroup(env, inp, k, BeginGroup(c, inp), Some(c)).stored)
  {
    if IsGroupReady(c) {
      FinishGroupAfterCall(env, inp, k, RemovingBeingCreated(c, AlreadyReady), Some(c));
    } else {
      FinishGroupAfterCall(env, inp, k, Creating(c), Some(c));
      var a := GroupReply(env, k, Creating(c), Some(c));
      if a.GroupCreated? {
        GroupCreationSettles(c, inp, a, env, k + 1);
      } else {
        GroupRefusalSettles(c, inp, a.message, env, k + 1);
      }
    }
  }

  lemma GroupRefusalSettles(c: GroupContent, inp: GroupInputs, m: Message, env: GroupEnv, k: nat)
    requires GroupCondemned(c) && c.beingCreated && !IsGroupReady(c) && GroupHandleIn(c).None? && GroupCooperative(env)
    ensures GroupSettles(c, FinishGroup(env, inp, k, RemovingBeingCreated(c, AfterFinalError(m)), Some(c)).stored)
  {
    FinishGroupAfterCall(env, inp, k, RemovingBeingCreated(c, AfterFinalError(m)), Some(c));
    GroupErrorKeeps(c.(beingCreated := false), inp, m, env, k + 1);
  }

  lemma GroupCreationSettles(c: GroupContent, inp: GroupInputs, a: GroupAnswer, env: GroupEnv, k: nat)
    requires GroupCondemned(c) && c.beingCreated && !IsGroupReady(c) && GroupCooperative(env) && a.GroupCreated? && a.infos != []
    ensures GroupSettles(c, FinishGroup(env, inp, k, Recording(c, a.handle, a.ready, a.created, a.infos, true), Some(c)).stored)
  {
    FinishGroupAfterCall(env, inp, k, Recording(c, a.handle, a.ready, a.created, a.infos, true), Some(c));
    var d := c.(status := Some(MergeGroupStatus(c.status, a.handle, a.ready, a.created, a.infos)));
    FinishGroupAfterCall(env, inp, k + 1, RemovingBeingCreated(d, AfterCreate), Some(d));
  }

  /** Recording an error changes nothing but error and readiness. */
  lemma GroupErrorKeeps(c: GroupContent, inp: GroupInputs, m: Message, env: GroupEnv, k: nat)
    requires KeptGroup(Some(c)) == Some(c)
    ensures var r := FinishGroup(env, inp, k, Reporting(c, m), Some(c)).stored;
            && r.Some? && r.value.(status := c.status) == c && GroupHandleIn(r.value) == GroupHandleIn(c)
            && (!IsGroupReady(c) ==> !IsGroupReady(r.value))
  {
    if !Reporting(c, m).Finished? {
      FinishGroupAfterCall(env, inp, k, ReportingError(c, m), Some(c));
    }
  }

  // ---- Stuck ----

  /** A stuck content stays so, whatever the answers are. */
  lemma GroupPassLeavesStuck(c: GroupContent, inp: GroupInputs, env: GroupEnv, k: nat)
    requires GroupCondemned(c) && GroupStuck(c, inp)
    ensures var r := FinishGroup(env, inp, k, BeginGroup(c, inp), Some(c)).stored;
            r.Some? && GroupCondemned(r.value) && GroupStuck(r.value, inp)
  {
    if GroupWaits(c, inp) {
      GroupErrorKeeps(c, inp, if c.className.None? || !inp.classFound || !inp.secretsOk then NoInput else BadParameters, env, k);
    } else if c.beingCreated {
      FinishGroupAfterCall(env, inp, k, RemovingBeingCreated(c, AlreadyReady), Some(c));
    } else if inp.secretsOk {
      MemberlessGroupsStay(env, inp, k, c);
    }
  }

  lemma {:induction false} GroupStuckForever(c: GroupContent, inp: GroupInputs, envs: seq<GroupEnv>)
    requires GroupCondemned(c) && GroupStuck(c, inp)
    ensures var r := AfterPasses(Some(c), inp, envs);
            r.Some? && GroupCondemned(r.value) && GroupStuck(r.value, inp)
    decreases |envs|
  {
    if envs != [] {
      GroupPassLeavesStuck(c, inp, envs[0], 0);
      GroupStuckForever(AfterPass(Some(c), inp, envs[0]).value, inp, envs[1..]);
    }
  }

  // ---- The whole way out ----

  function GroupRank(c: Option<GroupContent>): nat {
    if c.None? then 0 else if c.value.beingCreated then 3 else if GroupHandleIn(c.value).Some? then 2 else 1
  }

  ghost predicate GroupDrainable(c: Option<GroupContent>, inp: GroupInputs) {
    c.Some? ==> GroupCondemned(c.value) && !GroupStuck(c.value, inp)
  }

  lemma GroupPassLowersRank(c: Option<GroupContent>, inp: GroupInputs, env: GroupEnv)
    requires GroupDrainable(c, inp) && c.Some? && GroupCooperative(env)
    ensures GroupDrainable(AfterPass(c, inp, env), inp) && GroupRank(AfterPass(c, inp, env)) < GroupRank(c)
  {
    if c.value.beingCreated {
      GroupPassSettles(c.value, inp, env, 0);
    } else if GroupHandleIn(c.value).Some? {
      GroupSnapshotDeleted(c.value, inp, env, 0);
    } else {
      LastGroupFinalizer(c.value, inp, env, 0);
    }
  }

  lemma {:induction false} GroupDrains(c: Option<GroupContent>, inp: GroupInputs, envs: seq<GroupEnv>)
    requires GroupDrainable(c, inp) && (forall env <- envs :: GroupCooperative(env)) && GroupRank(c) <= |envs|
    ensures AfterPasses(c, inp, envs).None?
    decreases |envs|
  {
    if envs != [] {
      assert envs[0] in envs && forall env <- envs[1..] :: env in envs;
      if c.Some? {
        GroupPassLowersRank(c, inp, envs[0]);
      }
      GroupDrains(AfterPass(c, inp, envs[0]), inp, envs[1..]);
    }
  }

  /**
   Three passes are enough, and only three things stop the deletion of a group content: an announced creation
   that can no longer be sent, missing secrets, and a group snapshot recorded without members.
   */
  lemma GroupDrainsInThreePassesIff(c: GroupContent, inp: GroupInputs, envs: seq<GroupEnv>)
    requires GroupCondemned(c) && |envs| >= 3 && forall env <- envs :: GroupCooperative(env)
    ensures AfterPasses(Some(c), inp, envs).None? <==> !GroupStuck(c, inp)
  {
    if GroupStuck(c, inp) {
      GroupStuckForever(c, inp, envs);
    } else {
      GroupDrains(Some(c), inp, envs);
    }
  }

  // ---- A run into a group without members ----

  function MemberlessSteps(h: string): seq<GroupStep> {
    [ProtectContent, BeginGroupPass(GroupInputs(true, true, true, true, true)), AdvanceGroup(Ok(0)),
     AdvanceGroup(GroupCreated(h, true, 1, [])), AdvanceGroup(Ok(0)), AdvanceGroup(Ok(0)), MarkGroupDeleted, DeleteGroupContent]
  }

  lemma RecordedWithoutMembers(w: GroupWorld, h: string) returns (ws: seq<GroupWorld>)
    requires GroupInitial(w) && w.stored.value.finalizers == [] && w.stored.value.className.Some? && h !in w.gone
    ensures |ws| == 6 && ws[0] == w
    ensures forall i | 0 <= i < 5 :: GroupEnabled(ws[i], MemberlessSteps(h)[i]) && ws[i + 1] == ApplyGroup(ws[i], MemberlessSteps(h)[i])
    ensures ws[5].pass.RemovingBeingCreated? && ws[5].pass.why == AfterCreate && ws[5].stored == Some(w.stored.value.(
      finalizers := [GroupContentBound], beingCreated := true, status := Some(GroupStatus(Some(h), Some(true), Some(1), None, []))))
  {
    var steps := MemberlessSteps(h);
    var c := w.stored.value.(finalizers := [GroupContentBound]);
    assert w.stored.value.finalizers + [GroupContentBound] == [GroupContentBound];
    var w1 := ApplyGroup(w, steps[0]);
    assert w1.stored == Some(c);
    var w2 := ApplyGroup(w1, steps[1]);
    assert w2.pass == SettingBeingCreated(c, true);
    var w3 := ApplyGroup(w2, steps[2]);
    assert w3.pass == Creating(c.(beingCreated := true)) && w3.stored == Some(c.(beingCreated := true));
    var w4 := ApplyGroup(w3, steps[3]);
    assert w4.pass == Recording(c.(beingCreated := true), h, true, 1, [], true);
    ws := [w, w1, w2, w3, w4, ApplyGroup(w4, steps[4])];
  }

  /** Nothing in the code keeps a driver's answer without members from being recorded; the content deleted after it is stuck. */
  lemma RunIntoMemberlessGroup(w: GroupWorld, h: string, inp: GroupInputs)
    requires GroupInitial(w) && w.stored.value.finalizers == [] && w.stored.value.className.Some? && h !in w.gone
    requires w.stored.value.policy == Delete
    ensures exists ws: seq<GroupWorld> ::
              && IsGroupRun(ws, MemberlessSteps(h)) && ws[0] == w
              && ws[8].stored.Some? && GroupCondemned(ws[8].stored.value) && GroupStuck(ws[8].stored.value, inp)
  {
    var steps := MemberlessSteps(h);
    var early := RecordedWithoutMembers(w, h);
    var w6 := ApplyGroup(early[5], steps[5]);
    var w7 := ApplyGroup(w6, steps[6]);
    var ws := early + [w6, w7, ApplyGroup(w7, steps[7])];
    assert IsGroupRun(ws, steps);
  }
}
