/**
 A requested snapshot converges, from scratch or from whatever a crash left: with a working
 API and a driver that creates it and one day calls it ready, it ends up ready, bound both
 ways, protected, with its source claim released; from there on no round writes anything.
 */
module Converging {
  import opened Objects
  import opened Sidecar
  import opened Cluster
  import opened Mirror
  import opened Common
  import opened Rounds
  import Reporting

  // ---- The surroundings of a round ----

  /** The API works and CreateSnapshot succeeds, saying whether the snapshot is ready. */
  ghost predicate Creates(env: Env, ready: bool) {
    Cooperative(env)
    && forall k: nat, pc: Pc, stored: Option<Content> ::
         pc.AtCreateSnapshot? && pc.copy.refUid != "" && pc.copy.volumeHandle.Some?
         ==> env(k, pc, stored).Created? && env(k, pc, stored).ready == ready
  }

  predicate Equipped(inp: Inputs) {
    inp.classFound && inp.secretsOk && inp.paramsOk
  }

  // ---- The sidecar's turn ----

  /** A live dynamic content; finalizer, being-created and status are as the last crash left them. */
  predicate Partial(c: Content) {
    && c.refUid != "" && c.volumeHandle.Some? && c.snapshotHandle.None? && c.className.Some? && !c.deleted && !IsGroupMember(c)
    && GroupHandleOf(c).None? && (IsReady(c) ==> c.status.value.error.None?)
  }

  /** A content on which nothing but the driver's answer is outstanding. */
  predicate Plain(c: Content) {
    Partial(c) && ContentBound in c.finalizers && BeingCreated !in c.annotations
  }

  /** What a pass makes of a live content: readiness is the driver's, unless it was known already. */
  ghost predicate Answered(c: Content, r: Option<Content>, ready: bool) {
    && r.Some? && Plain(r.value) && r.value.status.Some? && (IsReady(r.value) <==> IsReady(c) || ready)
    && r.value.(status := c.status, annotations := c.annotations) == c
  }

  lemma {:induction false} PassAnswers(c: Content, inp: Inputs, env: Env, ready: bool)
    requires Partial(c) && ContentBound in c.finalizers && Equipped(inp) && Creates(env, ready)
    ensures Answered(c, Finish(env, 0, Begin(c, inp), Some(c)).stored, ready)
  {
    if IsReady(c) {
      if BeingCreated in c.annotations {
        FinishAfterCall(env, 0, AtRemoveBeingCreated(c, AlreadyReady), Some(c));
      }
    } else if BeingCreated in c.annotations {
      PassCreates(c, env, 0, ready);
    } else {
      assert Begin(c, inp) == AtSetBeingCreated(c, true);
      FinishAfterCall(env, 0, AtSetBeingCreated(c, true), Some(c));
      PassCreates(WithBeingCreated(c), env, 1, ready);
    }
  }

  lemma PassCreates(c: Content, env: Env, k: nat, ready: bool)
    requires Partial(c) && ContentBound in c.finalizers && BeingCreated in c.annotations && !IsReady(c) && Creates(env, ready)
    ensures Answered(c, Finish(env, k, AtCreateSnapshot(c), Some(c)).stored, ready)
  {
    FinishAfterCall(env, k, AtCreateSnapshot(c), Some(c));
    PassRecords(c, env, k + 1, Reply(env, k, AtCreateSnapshot(c), Some(c)));
  }

  lemma PassRecords(c: Content, env: Env, k: nat, a: Answer)
    requires Partial(c) && ContentBound in c.finalizers && BeingCreated in c.annotations && !IsReady(c)
    requires Cooperative(env) && a.Created?
    ensures Answered(c, Finish(env, k, AtRecord(c, true, a.handle, a.ready, a.created, a.size, ""), Some(c)).stored, a.ready)
  {
    FinishAfterCall(env, k, AtRecord(c, true, a.handle, a.ready, a.created, a.size, ""), Some(c));
    var d := c.(status := Some(MergeStatus(c.status, a.handle, a.ready, a.created, a.size, "")));
    FinishAfterCall(env, k + 1, AtRemoveBeingCreated(d, AfterCreate), Some(d));
  }

  // ---- How far a request has come ----

  /** A snapshot asking for a dynamic content under a known class. */
  predicate Requests(s: Snapshot, l: Lookup) {
    && s.uid != "" && !s.deleted && s.claimName.Some? && s.claimName.value != "" && s.contentName.None? && s.parent.None?
    && s.className.Some? && s.className.value in l.classes
  }

  /** Its status is missing, or a part of what mirroring the content `n` makes of it. */
  predicate Awaits(s: Snapshot, l: Lookup, n: string) {
    && Requests(s, l) && n == DynamicContentName(s.uid)
    && (s.status.Some? ==> s.status.value.bound in {None, Some(n)} && s.status.value.groupName.None?)
    && (IsSnapshotReady(s) ==> s.status.value.bound == Some(n) && s.status.value.error.None?)
  }

  function SourceOf(key: Key, s: Snapshot): Key
    requires s.claimName.Some?
  {
    Key(key.namespace, s.claimName.value)
  }

  /** Class, claim and volume allow a content to be made. */
  predicate CanBeMade(w: World, l: Lookup, key: Key, s: Snapshot)
    requires s.claimName.Some?
  {
    && NewContent(w, l, key, s).Some?
    && (var claim := w.claims[SourceOf(key, s)]; !claim.deleted || ClaimAsSource in claim.finalizers)
  }

  /**
   The snapshot is live, and nothing of what the controllers did for it so far is wrong: there may be no content
   yet, or one without finalizer, without status, with being-created still on or with an error; the snapshot may
   lack any finalizer or have any part of its status, errors included.
   */
  predicate Begun(w: World, l: Lookup, key: Key, n: string) {
    && key in w.snapshots && Awaits(w.snapshots[key], l, n) && n !in w.passes
    && (if n in w.contents then RefersTo(w.contents[n], key, w.snapshots[key]) && Partial(w.contents[n])
        else CanBeMade(w, l, key, w.snapshots[key]))
    && (IsSnapshotReady(w.snapshots[key]) ==> n in w.contents && IsReady(w.contents[n]))
  }

  predicate BoundTo(s: Snapshot, n: string) {
    SnapshotAsSource in s.finalizers && s.status.Some? && s.status.value.bound == Some(n) && s.status.value.ready.Some?
  }

  /** The snapshot is bound to its content, and the driver has answered at least once. */
  predicate Recorded(w: World, l: Lookup, key: Key, n: string) {
    && Begun(w, l, key, n) && BoundTo(w.snapshots[key], n)
    && n in w.contents && Plain(w.contents[n]) && w.contents[n].status.Some?
  }

  /** No other snapshot is still being taken from the same claim. */
  ghost predicate SourceIsOurs(w: World, key: Key) {
    key in w.snapshots && w.snapshots[key].claimName.Some?
    && forall k :: k in w.snapshots && k != key ==> !UsesClaim(k, w.snapshots[k], SourceOf(key, w.snapshots[key]))
  }

  predicate SourceIsFree(w: World, key: Key)
    requires key in w.snapshots && w.snapshots[key].claimName.Some?
  {
    var ck := SourceOf(key, w.snapshots[key]);
    ck in w.claims ==> ClaimAsSource !in w.claims[ck].finalizers
  }

  predicate Guarded(w: World, key: Key, n: string)
    requires key in w.snapshots && n in w.contents
  {
    w.contents[n].policy == Delete ==> SnapshotBound in w.snapshots[key].finalizers
  }

  function Stage(w: World, key: Key, n: string): nat
    requires key in w.snapshots && w.snapshots[key].claimName.Some?
  {
    if n !in w.contents || !IsReady(w.contents[n]) then 0
    else if !IsSnapshotReady(w.snapshots[key]) then 1
    else if !SourceIsFree(w, key) || !Guarded(w, key, n) then 2 else 3
  }

  /** Ready without an error, bound both ways, protected, and the source let go. */
  predicate Converged(w: World, l: Lookup, key: Key, n: string) {
    Recorded(w, l, key, n) && Stage(w, key, n) == 3
  }

  // ---- The snapshot's turn in the common controller ----

  /** Only the snapshot `key` may look different. */
  ghost predicate OtherSnapshotsSame(w: World, w': World, key: Key) {
    && (forall k :: k != key ==> (k in w'.snapshots <==> k in w.snapshots))
    && (forall k :: k != key && k in w.snapshots ==> w'.snapshots[k] == w.snapshots[k])
  }

  lemma NamesAreNotEmpty(uid: string)
    ensures DynamicContentName(uid) != ""
  {}

  lemma FinalizersTurn(c: Ctx, l: Lookup, key: Key, n: string)
    requires c.fates == [] && Begun(c.w, l, key, n)
    ensures var s := c.w.snapshots[key];
            var r := AddFinalizers(c, l, key, s);
            && r.ok && r.ctx.fates == [] && r.ctx.w == c.w.(snapshots := r.ctx.w.snapshots, log := r.ctx.w.log)
            && Current(r.ctx.w, key, s) && SnapshotAsSource in r.ctx.w.snapshots[key].finalizers
            && (IsSnapshotReady(s) ==> Guarded(r.ctx.w, key, n))
            && (SnapshotAsSource in s.finalizers && SnapshotBound in s.finalizers ==> r == Outcome(c, true))
            && (SnapshotAsSource in s.finalizers && n in c.w.contents && c.w.contents[n].policy == Retain ==> r == Outcome(c, true))
            && OtherSnapshotsSame(c.w, r.ctx.w, key)
  {
    NamesAreNotEmpty(c.w.snapshots[key].uid);
    assert FindDynamic(c.w, key, c.w.snapshots[key]) == if n in c.w.contents then Found(n) else Missing;
  }

  /** What a turn over a snapshot that was not ready leaves behind. */
  ghost predicate Mirrored(w: World, w': World, l: Lookup, key: Key, s: Snapshot, n: string) {
    && key in w'.snapshots && w'.snapshots[key].claimName == s.claimName && OtherSnapshotsSame(w, w', key)
    && Begun(w', l, key, n) && BoundTo(w'.snapshots[key], n) && n in w'.contents
    && (IsSnapshotReady(w'.snapshots[key]) <==> IsReady(w'.contents[n]))
    && (n in w.contents ==> w'.contents == w.contents)
    && (n !in w.contents ==> !IsReady(w'.contents[n]))
  }

  lemma ContentMade(c: Ctx, l: Lookup, key: Key, s: Snapshot, n: string)
    requires c.fates == [] && Current(c.w, key, s) && Requests(s, l) && n == DynamicContentName(s.uid)
    requires n !in c.w.contents && n !in c.w.passes && CanBeMade(c.w, l, key, s)
    ensures var r := CreateSnapshotContent(c, l, key, s);
            && r.ok && r.ctx.fates == [] && r.ctx.w == c.w.(contents := r.ctx.w.contents, claims := r.ctx.w.claims, log := r.ctx.w.log)
            && r.ctx.w.contents == c.w.contents[n := NewContent(c.w, l, key, s).value]
  {
    var p := ProtectClaim(c, key, s);
    assert p.ok && NewContent(p.ctx.w, l, key, s) == NewContent(c.w, l, key, s);
  }

  lemma MirroringAwaits(s: Snapshot, l: Lookup, n: string, st: Option<ContentStatus>)
    requires Awaits(s, l, n) && !IsSnapshotReady(s) && (ReadyOf(st) ==> ErrorOf(st).None?)
    ensures var m := MirrorStatus(s.status, n, st, "").status;
            && m.bound == Some(n) && m.ready == Some(ReadyOf(st)) && Awaits(s.(status := Some(m)), l, n)
            && (!MirrorStatus(s.status, n, st, "").updated ==> s.status == Some(m))
  {}

  lemma StatusWritten(c: Ctx, l: Lookup, key: Key, n: string, st: Option<ContentStatus>)
    requires c.fates == [] && key in c.w.snapshots && !c.w.snapshots[key].deleted && (st.Some? ==> st.value.groupHandle.None?)
    requires var m := MirrorStatus(c.w.snapshots[key].status, n, st, "");
             !m.updated ==> c.w.snapshots[key].status == Some(m.status)
    ensures var r := UpdateStatus(c, l, key, n, st);
            var s' := c.w.snapshots[key].(status := Some(MirrorStatus(c.w.snapshots[key].status, n, st, "").status));
            r.ok && r.ctx.w == c.w.(snapshots := c.w.snapshots[key := s'], log := r.ctx.w.log)
  {}

  /** Once the status of the content, if it has one, is mirrored. */
  lemma StatusTurn(c: Ctx, l: Lookup, key: Key, s: Snapshot, n: string)
    requires c.fates == [] && Current(c.w, key, s) && Awaits(s, l, n) && !IsSnapshotReady(s)
    requires SnapshotAsSource in c.w.snapshots[key].finalizers
    requires n in c.w.contents && n !in c.w.passes && RefersTo(c.w.contents[n], key, s) && Partial(c.w.contents[n])
    ensures var r := UpdateStatus(c, l, key, n, c.w.contents[n].status);
            && r.ok && r.ctx.w.contents == c.w.contents && Mirrored(c.w, r.ctx.w, l, key, s, n)
  {
    var stored, st := c.w.snapshots[key], c.w.contents[n].status;
    MirroringAwaits(stored, l, n, st);
    StatusWritten(c, l, key, n, st);
  }

  lemma MakingTurn(c: Ctx, l: Lookup, key: Key, s: Snapshot, n: string)
    requires c.fates == [] && Current(c.w, key, s) && Awaits(s, l, n) && !IsSnapshotReady(s)
    requires SnapshotAsSource in c.w.snapshots[key].finalizers
    requires n !in c.w.contents && n !in c.w.passes && CanBeMade(c.w, l, key, s)
    ensures Mirrored(c.w, SyncDynamic(c, l, key, s).ctx.w, l, key, s, n)
  {
    ContentMade(c, l, key, s, n);
    var made := CreateSnapshotContent(c, l, key, s).ctx;
    StatusTurn(made, l, key, s, n);
    assert SyncDynamic(c, l, key, s) == UpdateStatus(made, l, key, n, None);
  }

  lemma MirrorTurn(c: Ctx, l: Lookup, key: Key, s: Snapshot, n: string)
    requires c.fates == [] && Current(c.w, key, s) && Awaits(s, l, n) && !IsSnapshotReady(s)
    requires SnapshotAsSource in c.w.snapshots[key].finalizers
    requires n in c.w.contents && n !in c.w.passes && RefersTo(c.w.contents[n], key, s) && Partial(c.w.contents[n])
    ensures Mirrored(c.w, SyncDynamic(c, l, key, s).ctx.w, l, key, s, n)
  {
    StatusTurn(c, l, key, s, n);
    assert FindDynamic(c.w, key, s) == Found(n);
    assert SyncDynamic(c, l, key, s) == UpdateStatus(c, l, key, n, c.w.contents[n].status);
  }

  lemma TurnIsSyncDynamic(w: World, l: Lookup, key: Key, s: Snapshot)
    requires key in w.snapshots && s == w.snapshots[key] && Requests(s, l) && !IsSnapshotReady(s)
    requires AddFinalizers(Start(w, []), l, key, s).ok
    ensures SyncSnapshotByKey(Start(w, []), l, key) == SyncDynamic(AddFinalizers(Start(w, []), l, key, s).ctx, l, key, s)
  {
    Reporting.OwnClaimStays(Start(w, []), key, s);
  }

  lemma UnreadyTurn(w: World, l: Lookup, key: Key, n: string)
    requires Begun(w, l, key, n) && !IsSnapshotReady(w.snapshots[key])
    ensures Mirrored(w, SyncSnapshotByKey(Start(w, []), l, key).ctx.w, l, key, w.snapshots[key], n)
  {
    var s := w.snapshots[key];
    FinalizersTurn(Start(w, []), l, key, n);
    TurnIsSyncDynamic(w, l, key, s);
    var c := AddFinalizers(Start(w, []), l, key, s).ctx;
    if n in w.contents {
      MirrorTurn(c, l, key, s, n);
    } else {
      assert NewContent(c.w, l, key, s) == NewContent(w, l, key, s);
      MakingTurn(c, l, key, s, n);
    }
  }

  lemma ClaimTurn(c: Ctx, l: Lookup, key: Key, n: string)
    requires c.fates == [] && Begun(c.w, l, key, n) && IsSnapshotReady(c.w.snapshots[key])
    ensures var d := RemoveClaimProtection(c, key, c.w.snapshots[key], None).ctx;
            d.fates == [] && d.w == c.w.(claims := d.w.claims) && Begun(d.w, l, key, n)
  {}

  lemma ReadyNeedsNothing(c: Ctx, l: Lookup, key: Key, s: Snapshot, n: string)
    requires Current(c.w, key, s) && Awaits(s, l, n) && IsSnapshotReady(s) && IsBoundNameSet(s)
    requires n in c.w.contents && RefersTo(c.w.contents[n], key, s)
    ensures SyncReady(c, l, key, s) == Outcome(c, true)
  {}

  /** A ready snapshot: the claim is released if nobody else needs it, and the finalizers are completed. */
  lemma ReadyTurn(w: World, l: Lookup, key: Key, n: string)
    requires Begun(w, l, key, n) && IsSnapshotReady(w.snapshots[key])
    ensures var c1 := RemoveClaimProtection(Start(w, []), key, w.snapshots[key], None).ctx;
            && SyncSnapshotByKey(Start(w, []), l, key).ctx == AddFinalizers(c1, l, key, w.snapshots[key]).ctx
            && c1.fates == [] && c1.w == w.(claims := c1.w.claims) && Begun(c1.w, l, key, n)
  {
    var s := w.snapshots[key];
    NamesAreNotEmpty(s.uid);
    ClaimTurn(Start(w, []), l, key, n);
    var c1 := RemoveClaimProtection(Start(w, []), key, s, None).ctx;
    FinalizersTurn(c1, l, key, n);
    ReadyNeedsNothing(AddFinalizers(c1, l, key, s).ctx, l, key, s, n);
  }

  lemma UnusedClaimReleased(w: World, ck: Key)
    requires ck in w.claims && !ClaimInUse(w, ck, None)
    ensures var d := Call(Start(w, []), RemoveClaimFinalizer(ck, None)).ctx;
            && d.w == w.(claims := StoreClaim(w.claims, ck, w.claims[ck].(finalizers := Without(w.claims[ck].finalizers, ClaimAsSource))))
  {}

  lemma ClaimLetGo(w: World, key: Key, s: Snapshot)
    requires key in w.snapshots && s == w.snapshots[key] && s.claimName != Some("") && SourceIsOurs(w, key)
             && IsSnapshotReady(s)
    ensures var d := RemoveClaimProtection(Start(w, []), key, s, None).ctx;
            && d.w == w.(claims := d.w.claims) && SourceIsFree(d.w, key)
            && (SourceIsFree(w, key) ==> d == Start(w, []))
  {
    var ck := SourceOf(key, s);
    assert !ClaimInUse(w, ck, None);
    if s.claimName.Some? && ck in w.claims && ClaimAsSource in w.claims[ck].finalizers {
      UnusedClaimReleased(w, ck);
    }
  }

  lemma OursStays(w: World, w': World, key: Key)
    requires SourceIsOurs(w, key) && OtherSnapshotsSame(w, w', key)
    requires key in w'.snapshots && w'.snapshots[key].claimName == w.snapshots[key].claimName
    ensures SourceIsOurs(w', key)
  {
    forall k | k in w'.snapshots && k != key ensures !UsesClaim(k, w'.snapshots[k], SourceOf(key, w'.snapshots[key])) {
      assert w'.snapshots[k] == w.snapshots[k];
    }
  }

  /** The stage after one more round, if the driver's answer does not matter any more. */
  function Next(stage: nat): nat {
    if stage < 3 then stage + 1 else 3
  }

  /** The snapshot's turn, ready or not. */
  lemma SnapshotTurn(w: World, l: Lookup, key: Key, n: string)
    requires Begun(w, l, key, n) && SourceIsOurs(w, key)
    ensures var w' := SyncSnapshotByKey(Start(w, []), l, key).ctx.w;
            && Begun(w', l, key, n) && SourceIsOurs(w', key) && BoundTo(w'.snapshots[key], n) && n in w'.contents
            && (n in w.contents ==> w'.contents == w.contents)
            && (Stage(w, key, n) >= 1 ==> Stage(w', key, n) >= Next(Stage(w, key, n)))
  {
    var w' := SyncSnapshotByKey(Start(w, []), l, key).ctx.w;
    if IsSnapshotReady(w.snapshots[key]) {
      ReadyTurn(w, l, key, n);
      ClaimLetGo(w, key, w.snapshots[key]);
      FinalizersTurn(RemoveClaimProtection(Start(w, []), key, w.snapshots[key], None).ctx, l, key, n);
    } else {
      UnreadyTurn(w, l, key, n);
    }
    OursStays(w, w', key);
  }

  // ---- Rounds ----

  /** The content's turn in the common controller gives it the finalizer, if it has none. */
  lemma ContentGuarded(w: World, l: Lookup, key: Key, n: string)
    requires Begun(w, l, key, n) && n in w.contents
    ensures var r := SyncContent(Start(w, []), n);
            var c := w.contents[n];
            && (ContentBound in c.finalizers ==> r == Outcome(Start(w, []), true))
            && (ContentBound !in c.finalizers ==>
                  r.ctx.w == w.(contents := w.contents[n := c.(finalizers := c.finalizers + [ContentBound])]))
  {}

  lemma CommonRoundFromBegun(w: World, l: Lookup, key: Key, n: string)
    requires Begun(w, l, key, n) && SourceIsOurs(w, key)
    ensures var w' := CommonRound(w, l, key, n);
            && Begun(w', l, key, n) && SourceIsOurs(w', key) && BoundTo(w'.snapshots[key], n)
            && n in w'.contents && ContentBound in w'.contents[n].finalizers
            && (Stage(w, key, n) >= 1 ==> Stage(w', key, n) >= Next(Stage(w, key, n)))
  {
    SnapshotTurn(w, l, key, n);
    var w1 := SyncSnapshotByKey(Start(w, []), l, key).ctx.w;
    ContentGuarded(w1, l, key, n);
    OursStays(w1, CommonRound(w, l, key, n), key);
  }

  /** One round settles what the crash left open, and carries the request one stage further. */
  lemma RoundFromBegun(w: World, l: Lookup, key: Key, n: string, inp: Inputs, env: Env, ready: bool)
    requires Begun(w, l, key, n) && SourceIsOurs(w, key) && Equipped(inp) && Creates(env, ready)
    ensures var w' := Round(w, l, key, n, inp, env);
            && Recorded(w', l, key, n) && SourceIsOurs(w', key)
            && (Stage(w, key, n) >= 1 ==> Stage(w', key, n) >= Next(Stage(w, key, n)))
            && (ready ==> Stage(w', key, n) >= 1)
  {
    CommonRoundFromBegun(w, l, key, n);
    SidecarTurn(CommonRound(w, l, key, n), l, key, n, inp, env, ready);
  }

  lemma SidecarTurn(w: World, l: Lookup, key: Key, n: string, inp: Inputs, env: Env, ready: bool)
    requires Begun(w, l, key, n) && SourceIsOurs(w, key) && Equipped(inp) && Creates(env, ready)
    requires BoundTo(w.snapshots[key], n) && n in w.contents && ContentBound in w.contents[n].finalizers
    ensures var w' := SidecarRound(w, n, inp, env);
            && Recorded(w', l, key, n) && SourceIsOurs(w', key)
            && Stage(w', key, n) >= Stage(w, key, n) && (ready ==> Stage(w', key, n) >= 1)
  {
    SidecarRoundEffect(w, n, inp, env);
    PassAnswers(w.contents[n], inp, env, ready);
    OursStays(w, SidecarRound(w, n, inp, env), key);
  }

  /** In round `i` the driver says `readies[i]`. */
  ghost predicate AllCreate(envs: seq<Env>, readies: seq<bool>)
    decreases |envs|
  {
    |readies| == |envs| && (envs != [] ==> Creates(envs[0], readies[0]) && AllCreate(envs[1..], readies[1..]))
  }

  lemma {:induction false} RecordedConverges(w: World, l: Lookup, key: Key, n: string, inp: Inputs, envs: seq<Env>, readies: seq<bool>, i: nat)
    requires Recorded(w, l, key, n) && SourceIsOurs(w, key) && Equipped(inp)
    requires AllCreate(envs, readies) && |readies| == |envs|
    requires Stage(w, key, n) == 0 ==> i + 3 <= |envs| && readies[i]
    requires Stage(w, key, n) >= 1 ==> Stage(w, key, n) + |envs| >= 3
    ensures Converged(After(w, l, key, n, inp, envs), l, key, n)
    decreases |envs|
  {
    if envs != [] {
      RoundFromBegun(w, l, key, n, inp, envs[0], readies[0]);
      RecordedConverges(Round(w, l, key, n, inp, envs[0]), l, key, n, inp, envs[1..], readies[1..], if i > 0 then i - 1 else 0);
    }
  }

  /**
   Two rounds after one in which the driver calls the snapshot ready everything is in its final place, whether
   nothing had happened before the first round or a crash had stopped the controllers anywhere in their work.
   */
  lemma Converges(w: World, l: Lookup, key: Key, n: string, inp: Inputs, envs: seq<Env>, readies: seq<bool>, i: nat)
    requires Begun(w, l, key, n) && SourceIsOurs(w, key) && Equipped(inp)
    requires AllCreate(envs, readies) && |readies| == |envs|
    requires i + 3 <= |envs| && readies[i]
    ensures Converged(After(w, l, key, n, inp, envs), l, key, n)
  {
    RoundFromBegun(w, l, key, n, inp, envs[0], readies[0]);
    RecordedConverges(Round(w, l, key, n, inp, envs[0]), l, key, n, inp, envs[1..], readies[1..], if i > 0 then i - 1 else 0);
  }

  lemma ConvergedTurn(w: World, l: Lookup, key: Key, n: string)
    requires Converged(w, l, key, n) && SourceIsOurs(w, key)
    ensures SyncSnapshotByKey(Start(w, []), l, key).ctx == Start(w, []) && SyncContent(Start(w, []), n).ctx == Start(w, [])
  {
    ReadyTurn(w, l, key, n);
    ClaimLetGo(w, key, w.snapshots[key]);
    FinalizersTurn(Start(w, []), l, key, n);
    ContentGuarded(w, l, key, n);
  }

  /** From there on no controller makes a call: neither pass of the common one, nor the sidecar. */
  lemma NothingMoreToDo(w: World, l: Lookup, key: Key, n: string, inp: Inputs)
    requires Converged(w, l, key, n) && SourceIsOurs(w, key)
    ensures SyncSnapshotByKey(Start(w, []), l, key).ctx.made == [] && SyncContent(Start(w, []), n).ctx.made == []
    ensures Begin(w.contents[n], inp) == Done(false, false)
    ensures forall env :: Round(w, l, key, n, inp, env) == w
  {
    ConvergedTurn(w, l, key, n);
    assert CommonRound(w, l, key, n) == w;
    forall env ensures Round(w, l, key, n, inp, env) == w {
      assert w.passes - {n} == w.passes;
    }
  }
}
