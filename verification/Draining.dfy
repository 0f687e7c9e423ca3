/**
 A deleted snapshot drains, member of a group or not: with a working API and a driver that
 answers, it and its Delete-policy content are gone after at most three rounds, unless the
 content still waits for a creation that can no longer be attempted, or has a snapshot and
 nobody may delete it, or the member's status does not name its group.
 */
module Draining {
  import opened Objects
  import opened Sidecar
  import opened Cluster
  import opened Common
  import opened Rounds
  import opened Departing
  import Reporting

  // ---- What a sidecar pass does to a content on its way out ----

  /** A Delete-policy content with nothing but the controllers' own finalizer; being-created is for dynamic ones outside groups. */
  predicate OwnContent(c: Content) {
    && c.policy == Delete && HasOneSource(c) && c.refUid != ""
    && (forall f <- c.finalizers :: f == ContentBound)
    && (BeingCreated in c.annotations ==> IsDynamic(c) && GroupHandleOf(c).None?)
  }

  predicate Condemned(c: Content) {
    OwnContent(c) && c.deleted && BeingDeleted in c.annotations && c.finalizers != []
  }

  /** The next CreateSnapshot can be sent. */
  predicate CanCreate(c: Content, inp: Inputs) {
    c.className.Some? && inp.classFound && inp.secretsOk && inp.paramsOk
  }

  /** The annotation can never be taken off: the content waits for an answer to a call nobody will make. */
  predicate Waits(c: Content, inp: Inputs) {
    BeingCreated in c.annotations && !IsReady(c) && !CanCreate(c, inp)
  }

  /**
   No pass can get the content any further: it waits, or its snapshot cannot be deleted without the secrets.
   The snapshot of a group member is deleted with the group, and no call is made for it.
   */
  predicate Stuck(c: Content, inp: Inputs) {
    Waits(c, inp) || (!inp.secretsOk && Handle(c).Some? && GroupHandleOf(c).None?)
  }

  ghost predicate SameSpec(c: Content, d: Content) {
    && d.refKey == c.refKey && d.refUid == c.refUid && d.volumeHandle == c.volumeHandle && d.snapshotHandle == c.snapshotHandle
    && d.policy == c.policy && d.className == c.className && d.deleted == c.deleted && d.finalizers == c.finalizers
    && (forall k :: k != BeingCreated ==> (k in d.annotations <==> k in c.annotations))
  }

  lemma {:induction false} OnlyOwnFinalizer(fs: seq<Finalizer>)
    requires forall f <- fs :: f == ContentBound
    ensures Without(fs, ContentBound) == []
  {
    if fs != [] {
      assert fs[0] in fs && forall f <- fs[1..] :: f in fs;
      OnlyOwnFinalizer(fs[1..]);
    }
  }

  lemma PassRemoves(c: Content, inp: Inputs, env: Env, k: nat)
    requires Condemned(c) && BeingCreated !in c.annotations && !Stuck(c, inp) && Cooperative(env)
    ensures Finish(env, k, Begin(c, inp), Some(c)).stored == None
  {
    OnlyOwnFinalizer(c.finalizers);
    if Handle(c).Some? && GroupHandleOf(c).None? {
      assert Begin(c, inp) == AtDeleteSnapshot(c);
      FinishAfterCall(env, k, AtDeleteSnapshot(c), Some(c));
      FinishAfterCall(env, k + 1, AtClearStatus(c), Some(c));
      LastFinalizer(WithClearedStatus(c), env, k + 2);
    } else {
      LastFinalizer(c, env, k);
    }
  }

  lemma LastFinalizer(c: Content, env: Env, k: nat)
    requires c.deleted && ContentBound in c.finalizers && Without(c.finalizers, ContentBound) == [] && Cooperative(env)
    ensures Finish(env, k, ToRemoveFinalizer(c), Some(c)).stored == None
  {
    FinishAfterCall(env, k, AtRemoveFinalizer(c), Some(c));
  }

  /** With the annotation on, one pass gets the pending answer and takes it off. */
  lemma PassSettles(c: Content, inp: Inputs, env: Env, k: nat)
    requires Condemned(c) && BeingCreated in c.annotations && !Waits(c, inp) && Cooperative(env)
    ensures Settles(c, Finish(env, k, Begin(c, inp), Some(c)).stored)
  {
    if IsReady(c) {
      FinishAfterCall(env, k, AtRemoveBeingCreated(c, AlreadyReady), Some(c));
    } else {
      assert Begin(c, inp) == AtCreateSnapshot(c);
      FinishAfterCall(env, k, AtCreateSnapshot(c), Some(c));
      var a := Reply(env, k, AtCreateSnapshot(c), Some(c));
      if a.Created? {
        CreationSettles(c, a, env, k + 1);
      } else {
        RefusalSettles(c, a.message, env, k + 1);
      }
    }
  }

  ghost predicate Settles(c: Content, r: Option<Content>) {
    r.Some? && Condemned(r.value) && SameSpec(c, r.value) && BeingCreated !in r.value.annotations
    && (IsReady(c) ==> r.value.status == c.status)
  }

  lemma RefusalSettles(c: Content, m: Message, env: Env, k: nat)
    requires Condemned(c) && BeingCreated in c.annotations && !IsReady(c) && Cooperative(env)
    ensures Settles(c, Finish(env, k, AtRemoveBeingCreated(c, AfterFinalError(m)), Some(c)).stored)
  {
    FinishAfterCall(env, k, AtRemoveBeingCreated(c, AfterFinalError(m)), Some(c));
    ErrorStatusKeeps(WithoutBeingCreated(c), m, env, k + 1);
  }

  lemma CreationSettles(c: Content, a: Answer, env: Env, k: nat)
    requires Condemned(c) && BeingCreated in c.annotations && !IsReady(c) && Cooperative(env) && a.Created?
    ensures Settles(c, Finish(env, k, AtRecord(c, true, a.handle, a.ready, a.created, a.size, ""), Some(c)).stored)
  {
    var record := AtRecord(c, true, a.handle, a.ready, a.created, a.size, "");
    FinishAfterCall(env, k, record, Some(c));
    var d := c.(status := Some(MergeStatus(c.status, a.handle, a.ready, a.created, a.size, "")));
    FinishAfterCall(env, k + 1, AtRemoveBeingCreated(d, AfterCreate), Some(d));
  }

  lemma ErrorStatusKeeps(c: Content, m: Message, env: Env, k: nat)
    requires Kept(Some(c)) == Some(c)
    ensures var r := Finish(env, k, ToErrorStatus(c, m), Some(c)).stored;
            && r.Some? && SameSpec(c, r.value) && r.value.annotations == c.annotations && GroupHandleOf(r.value) == GroupHandleOf(c)
            && (!IsReady(c) ==> !IsReady(r.value))
  {
    if !ToErrorStatus(c, m).Done? {
      FinishAfterCall(env, k, AtErrorStatus(c, m), Some(c));
    }
  }

  /** A content that is stuck stays so, whatever the answers are. */
  lemma PassLeavesStuck(c: Content, inp: Inputs, env: Env, k: nat)
    requires Condemned(c) && Stuck(c, inp)
    ensures var r := Finish(env, k, Begin(c, inp), Some(c)).stored;
            r.Some? && Condemned(r.value) && SameSpec(c, r.value) && Stuck(r.value, inp)
  {
    if Waits(c, inp) {
      ErrorStatusKeeps(c, if c.className.None? || !inp.classFound || !inp.secretsOk then NoInput else BadParameters, env, k);
    } else if BeingCreated in c.annotations {
      FinishAfterCall(env, k, AtRemoveBeingCreated(c, AlreadyReady), Some(c));
    }
  }

  // ---- What the common controller does in a round ----

  /** The pair on its way out: the deleted snapshot, if still there, and the content, if still there. */
  ghost predicate Dying(w: World, l: Lookup, key: Key, n: string) {
    && n !in w.passes
    && !IsBeingRestored(w, key)
    && (key in w.snapshots ==> DyingSnapshot(w.snapshots[key], l, n) && GroupGone(w, key, w.snapshots[key]))
    && (n in w.contents ==> OwnContent(w.contents[n]) && w.contents[n].refKey == key)
    && (n in w.contents && w.contents[n].deleted ==> w.contents[n].finalizers != [])
    && (n in w.contents && key in w.snapshots ==> w.contents[n].refUid == w.snapshots[key].uid)
    && (n in w.contents && key !in w.snapshots ==> Condemned(w.contents[n]))
  }

  /** The class is there, or its absence is recorded on the snapshot already; some snapshots need none. */
  predicate ClassSettled(s: Snapshot, l: Lookup) {
    if s.className.None? then s.contentName.Some? || s.parent.Some?
    else s.className.value in l.classes
         || (s.status.Some? && s.status.value.error.Some? && s.status.value.error.value.message == ClassMissing)
  }

  /** A deleted snapshot with only the controllers' finalizers. */
  predicate DyingSnapshot(s: Snapshot, l: Lookup, n: string) {
    s.deleted && s.finalizers != [] && OnlyOurs(s.finalizers) && DeletionContentName(s) == n && ClassSettled(s, l)
  }

  /** A missing class costs one turn, in which its absence is recorded and nothing else happens. */
  lemma MissingClassIsRecorded(w: World, l: Lookup, key: Key)
    requires key in w.snapshots && w.snapshots[key].deleted && w.snapshots[key].finalizers != []
    requires w.snapshots[key].className.Some? && !ClassSettled(w.snapshots[key], l)
    ensures var w' := SyncSnapshotByKey(Start(w, []), l, key).ctx.w;
            var s' := w.snapshots[key].(status := Some(WithError(w.snapshots[key].status, l.now, false, ClassMissing)));
            && w' == w.(snapshots := w.snapshots[key := s'], log := w'.log)
            && ClassSettled(s', l) && DeletionContentName(s') == DeletionContentName(w.snapshots[key])
  {
    Reporting.ErrorIsWritten(Start(w, []), l, key, w.snapshots[key], false, ClassMissing);
    GateWrites(w, l, key);
  }

  lemma GateWrites(w: World, l: Lookup, key: Key)
    requires key in w.snapshots && w.snapshots[key].className.Some? && w.snapshots[key].className.value !in l.classes
    requires var w' := UpdateErrorStatus(Start(w, []), l, key, w.snapshots[key], false, ClassMissing).ctx.w;
             key in w'.snapshots && w'.snapshots[key] != w.snapshots[key]
    ensures SyncSnapshotByKey(Start(w, []), l, key).ctx.w
            == UpdateErrorStatus(Start(w, []), l, key, w.snapshots[key], false, ClassMissing).ctx.w
  {}

  lemma StillNotRestored(w: World, w': World, key: Key)
    requires !IsBeingRestored(w, key) && ClaimsShrink(w, w')
    ensures !IsBeingRestored(w', key)
  {
    forall ck | ck in w'.claims ensures !RestoresFrom(ck, w'.claims[ck], key) {
      assert !RestoresFrom(ck, w.claims[ck], key);
    }
  }

  /** What is left of the content after the common controller's turn. */
  ghost predicate Turned(c: Content, w': World, n: string) {
    n in w'.contents ==>
      && Condemned(w'.contents[n]) && w'.contents[n].refKey == c.refKey && w'.contents[n].refUid == c.refUid
      && w'.contents[n].className == c.className && w'.contents[n].status == c.status
      && (BeingCreated in w'.contents[n].annotations <==> BeingCreated in c.annotations)
  }

  lemma LetGoIsTurned(c: Content, w': World, n: string)
    requires OwnContent(c) && LetGo(c, w', n)
    ensures Turned(c, w', n) && (n in w'.contents <==> c.finalizers != [])
  {
    assert n in w'.contents ==> (forall k :: k in w'.contents[n].annotations <==> k in c.annotations || k == BeingDeleted);
  }

  lemma TurnIsDeletion(w: World, l: Lookup, key: Key, n: string)
    requires key in w.snapshots && DyingSnapshot(w.snapshots[key], l, n)
    ensures SyncSnapshotByKey(Start(w, []), l, key)
            == SyncDeleted(RemoveClaimProtection(Start(w, []), key, w.snapshots[key], None).ctx, key, w.snapshots[key])
  {}

  lemma ReleaseTurn(c: Ctx, l: Lookup, key: Key, n: string)
    requires c.fates == [] && Dying(c.w, l, key, n) && key in c.w.snapshots && !Forgotten(c.w, key) && n in c.w.contents
    ensures var w' := ReleaseContent(c, key, c.w.snapshots[key], n, NamesGroup(c.w.snapshots[key])).ctx.w;
            && Dying(w', l, key, n) && !Forgotten(w', key)
            && Turned(c.w.contents[n], w', n) && (n in w'.contents <==> c.w.contents[n].finalizers != [])
  {
    var s := c.w.snapshots[key];
    assert s.finalizers[0] in s.finalizers;
    StrippedIff(s, !HoldsContent(c.w, key, s), NamesGroup(s));
    ContentReleased(c, key, s, n);
    var w' := ReleaseContent(c, key, s, n, NamesGroup(s)).ctx.w;
    LetGoIsTurned(c.w.contents[n], w', n);
    StillNotRestored(c.w, w', key);
  }

  lemma DeletionTurn(c: Ctx, l: Lookup, key: Key, n: string)
    requires c.fates == [] && Dying(c.w, l, key, n) && key in c.w.snapshots && !Forgotten(c.w, key)
    ensures var w, w' := c.w, SyncDeleted(c, key, c.w.snapshots[key]).ctx.w;
            && Dying(w', l, key, n) && !Forgotten(w', key)
            && (n in w.contents ==> Turned(w.contents[n], w', n) && (n in w'.contents <==> w.contents[n].finalizers != []))
            && (n !in w.contents ==> n !in w'.contents && key !in w'.snapshots)
  {
    var s := c.w.snapshots[key];
    assert s.finalizers[0] in s.finalizers;
    if n in c.w.contents {
      ReleaseTurn(c, l, key, n);
    } else {
      FinalizersGo(c, key, s, true, NamesGroup(s));
      StillNotRestored(c.w, RemoveFinalizers(c, key, s, true, NamesGroup(s)).ctx.w, key);
    }
  }

  /** The deleted snapshot's turn in the common controller. */
  lemma SnapshotTurn(w: World, l: Lookup, key: Key, n: string)
    requires Dying(w, l, key, n) && key in w.snapshots && !Forgotten(w, key)
    ensures var w' := SyncSnapshotByKey(Start(w, []), l, key).ctx.w;
            && Dying(w', l, key, n) && !Forgotten(w', key)
            && (n in w.contents ==> Turned(w.contents[n], w', n) && (n in w'.contents <==> w.contents[n].finalizers != []))
            && (n !in w.contents ==> n !in w'.contents && key !in w'.snapshots)
  {
    TurnIsDeletion(w, l, key, n);
    ClaimRelease(Start(w, []), key, w.snapshots[key], None);
    var c := RemoveClaimProtection(Start(w, []), key, w.snapshots[key], None).ctx;
    StillNotRestored(w, c.w, key);
    DeletionTurn(c, l, key, n);
  }

  /** A condemned content gives the common controller nothing more to do. */
  lemma ContentTurn(w: World, n: string)
    requires n in w.contents && Condemned(w.contents[n])
    ensures SyncContent(Start(w, []), n).ctx.w == w
  {}

  /** Both turns of the common controller in a round. */
  lemma CommonTurn(w: World, l: Lookup, key: Key, n: string)
    requires Dying(w, l, key, n) && !Forgotten(w, key)
    ensures var w' := CommonRound(w, l, key, n);
            && Dying(w', l, key, n) && !Forgotten(w', key)
            && (n in w.contents ==> Turned(w.contents[n], w', n) && (n in w'.contents <==> w.contents[n].finalizers != []))
            && (n !in w.contents ==> n !in w'.contents && key !in w'.snapshots)
            && (n in w'.contents ==> Condemned(w'.contents[n]))
  {
    if key in w.snapshots {
      SnapshotTurn(w, l, key, n);
    }
    var w1 := if key in w.snapshots then SyncSnapshotByKey(Start(w, []), l, key).ctx.w else w;
    if n in w1.contents {
      ContentTurn(w1, n);
    }
  }

  // ---- The whole way out ----

  /** How far the pair is from being gone. */
  function Rank(w: World, key: Key, n: string): nat {
    if n in w.contents then if BeingCreated in w.contents[n].annotations then 3 else 2
    else if key in w.snapshots then 1 else 0
  }

  predicate Gone(w: World, key: Key, n: string) {
    key !in w.snapshots && n !in w.contents
  }

  /** The content is stuck, and its finalizer keeps it. */
  predicate Blocked(w: World, n: string, inp: Inputs) {
    n in w.contents && w.contents[n].finalizers != [] && Stuck(w.contents[n], inp)
  }

  lemma RoundLowersRank(w: World, l: Lookup, key: Key, n: string, inp: Inputs, env: Env)
    requires Dying(w, l, key, n) && !Forgotten(w, key) && !Blocked(w, n, inp) && Cooperative(env) && !Gone(w, key, n)
    ensures var w' := Round(w, l, key, n, inp, env);
            Dying(w', l, key, n) && !Forgotten(w', key) && !Blocked(w', n, inp) && Rank(w', key, n) < Rank(w, key, n)
  {
    CommonTurn(w, l, key, n);
    var w1 := CommonRound(w, l, key, n);
    if n in w1.contents {
      SidecarTurn(w1, l, key, n, inp, env);
    }
  }

  /** The sidecar's turn brings a condemned content closer to its end. */
  lemma SidecarTurn(w: World, l: Lookup, key: Key, n: string, inp: Inputs, env: Env)
    requires Dying(w, l, key, n) && n in w.contents && Condemned(w.contents[n]) && !Stuck(w.contents[n], inp) && Cooperative(env)
    ensures var w' := SidecarRound(w, n, inp, env);
            Dying(w', l, key, n) && (Forgotten(w', key) ==> Forgotten(w, key)) && !Blocked(w', n, inp) && Rank(w', key, n) < Rank(w, key, n)
  {
    SidecarRoundEffect(w, n, inp, env);
    StillNotRestored(w, SidecarRound(w, n, inp, env), key);
    if BeingCreated in w.contents[n].annotations {
      PassSettles(w.contents[n], inp, env, 0);
    } else {
      PassRemoves(w.contents[n], inp, env, 0);
    }
  }

  lemma GoneForGood(w: World, l: Lookup, key: Key, n: string, inp: Inputs, env: Env)
    requires Gone(w, key, n)
    ensures Round(w, l, key, n, inp, env) == w
  {}

  lemma {:induction false} Drains(w: World, l: Lookup, key: Key, n: string, inp: Inputs, envs: seq<Env>)
    requires Dying(w, l, key, n) && !Forgotten(w, key) && !Blocked(w, n, inp)
    requires (forall env <- envs :: Cooperative(env)) && Rank(w, key, n) <= |envs|
    ensures Gone(After(w, l, key, n, inp, envs), key, n)
    decreases |envs|
  {
    if envs != [] {
      assert envs[0] in envs && forall env <- envs[1..] :: env in envs;
      if Gone(w, key, n) {
        GoneForGood(w, l, key, n, inp, envs[0]);
      } else {
        RoundLowersRank(w, l, key, n, inp, envs[0]);
      }
      Drains(Round(w, l, key, n, inp, envs[0]), l, key, n, inp, envs[1..]);
    }
  }

  /** A blocked pair stays, however many rounds there are and whatever the answers. */
  lemma {:induction false} BlockedForever(w: World, l: Lookup, key: Key, n: string, inp: Inputs, envs: seq<Env>)
    requires Dying(w, l, key, n) && !Forgotten(w, key) && Blocked(w, n, inp)
    ensures Blocked(After(w, l, key, n, inp, envs), n, inp)
    decreases |envs|
  {
    if envs != [] {
      CommonTurn(w, l, key, n);
      var w1 := CommonRound(w, l, key, n);
      SidecarRoundEffect(w1, n, inp, envs[0]);
      PassLeavesStuck(w1.contents[n], inp, envs[0], 0);
      var w' := SidecarRound(w1, n, inp, envs[0]);
      StillNotRestored(w1, w', key);
      BlockedForever(w', l, key, n, inp, envs[1..]);
    }
  }

  lemma CommonRoundForgets(w: World, l: Lookup, key: Key, n: string)
    requires Forgotten(w, key)
    ensures Forgotten(CommonRound(w, l, key, n), key)
  {
    PassKeepsForgotten(Start(w, []), l, key);
    var w1 := SyncSnapshotByKey(Start(w, []), l, key).ctx.w;
    if n in w1.contents {
      ContentPassKeepsSnapshots(w1, n);
    }
  }

  lemma ContentPassKeepsSnapshots(w: World, n: string)
    requires n in w.contents
    ensures SyncContent(Start(w, []), n).ctx.w.snapshots == w.snapshots
  {}

  /** A forgotten member stays, however many rounds there are, whatever the answers and whatever becomes of its content. */
  lemma {:induction false} ForgottenForever(w: World, l: Lookup, key: Key, n: string, inp: Inputs, envs: seq<Env>)
    requires Forgotten(w, key)
    ensures Forgotten(After(w, l, key, n, inp, envs), key)
    decreases |envs|
  {
    if envs != [] {
      CommonRoundForgets(w, l, key, n);
      var w1 := CommonRound(w, l, key, n);
      if n in w1.contents && n !in w1.passes && HasOneSource(w1.contents[n]) {
        SidecarRoundEffect(w1, n, inp, envs[0]);
      }
      ForgottenForever(Round(w, l, key, n, inp, envs[0]), l, key, n, inp, envs[1..]);
    }
  }

  /**
   Three rounds are enough, and three things only stop a deletion: a creation the sidecar once announced
   and can no longer attempt because the class, its parameters or its secrets are not usable; a recorded
   snapshot that cannot be deleted because the secrets are not; and, for a member of a group, a status
   that does not name the group, or no other finalizer of the controllers.
   */
  lemma DrainsInThreeRoundsIff(w: World, l: Lookup, key: Key, n: string, inp: Inputs, envs: seq<Env>)
    requires Dying(w, l, key, n) && |envs| >= 3 && forall env <- envs :: Cooperative(env)
    ensures Gone(After(w, l, key, n, inp, envs), key, n) <==> !Blocked(w, n, inp) && !Forgotten(w, key)
  {
    if Forgotten(w, key) {
      ForgottenForever(w, l, key, n, inp, envs);
    } else if Blocked(w, n, inp) {
      BlockedForever(w, l, key, n, inp, envs);
    } else {
      Drains(w, l, key, n, inp, envs);
    }
  }
}
