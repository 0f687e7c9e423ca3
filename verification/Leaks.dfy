/**
 Whole runs: where physical snapshots are never leaked, exactly which deletion breaks
 this, and a run in which it happens.
 */
module Leaks {
  import opened Objects
  import opened Sidecar
  import opened Cluster
  import opened Invariants
  import opened Tracking

  // ---- Every run ----

  lemma InitialIsGood(w: World)
    requires Initial(w)
    ensures Base(w) && Tracked(w)
  {}

  lemma {:induction false} RunsKeepBase(ws: seq<World>, steps: seq<Step>, i: nat)
    requires IsRun(ws, steps) && i < |ws|
    ensures Base(ws[i]) && ws[i].prefix == ws[0].prefix
  {
    if i == 0 {
      InitialIsGood(ws[0]);
    } else {
      RunsKeepBase(ws, steps, i - 1);
      StepKeepsBase(ws[i - 1], steps[i - 1]);
    }
  }

  /** No step before `i` deletes a content that its snapshot still needs and no finalizer protects. */
  ghost predicate DeletesSafely(ws: seq<World>, steps: seq<Step>, i: nat)
    requires |ws| == |steps| + 1 && i < |ws|
  {
    forall j | 0 <= j < i :: !UnsafeDelete(ws[j], steps[j])
  }

  lemma {:induction false} RunsKeepTracking(ws: seq<World>, steps: seq<Step>, i: nat)
    requires IsRun(ws, steps) && i < |ws| && DeletesSafely(ws, steps, i)
    ensures Base(ws[i]) && Tracked(ws[i])
  {
    RunsKeepBase(ws, steps, i);
    if i == 0 {
      InitialIsGood(ws[0]);
    } else {
      RunsKeepTracking(ws, steps, i - 1);
      StepKeepsTracking(ws[i - 1], steps[i - 1]);
    }
  }

  /** In every run, with crashes, lost answers and errors anywhere, no physical snapshot is leaked. */
  lemma NoLeakInEveryRun(ws: seq<World>, steps: seq<Step>, i: nat)
    requires IsRun(ws, steps) && i < |ws| && DeletesSafely(ws, steps, i)
    ensures NoLeak(ws[i])
  {
    RunsKeepTracking(ws, steps, i);
    TrackedMeansNoLeak(ws[i]);
  }

  /**
   When a pass is about to take the finalizer off a Delete-policy dynamic content, the driver
   neither holds a snapshot for it nor can still produce one.
   */
  lemma FinalizerLeavesNothingBehind(ws: seq<World>, steps: seq<Step>, i: nat, n: string)
    requires IsRun(ws, steps) && i < |ws| && DeletesSafely(ws, steps, i)
    requires n in ws[i].passes && ws[i].passes[n].AtRemoveFinalizer? && n in ws[i].contents
    requires IsDynamic(ws[i].contents[n]) && ws[i].contents[n].policy == Delete
    requires ws[i].contents[n].refUid !in ws[i].log.released
    ensures !Present(ws[i], ws[i].contents[n].refUid)
  {
    RunsKeepTracking(ws, steps, i);
    var w := ws[i];
    assert PassOk(w, n, w.passes[n]) && PassTrack(w, n, w.passes[n]) && Track(w, w.contents[n]);
  }

  // ---- The condition is exact ----

  const TIMEOUT := CreateFailed(Grpc(DeadlineExceeded), CreationFailed)

  /**
   A deletion of that kind leaks at once, or opens the door: the pass still has CreateSnapshot
   to send, and if the call times out the driver may produce a snapshot nobody claims.
   */
  lemma UnsafeDeleteLeaks(w: World, step: Step)
    requires Base(w) && Tracked(w) && Enabled(w, step) && UnsafeDelete(w, step)
    ensures var n := if step.Common? then step.common.n else step.user.n;
            var w1 := Apply(w, step);
            !NoLeak(w1) || (Enabled(w1, AdvancePass(n, TIMEOUT)) && !NoLeak(Apply(w1, AdvancePass(n, TIMEOUT))))
  {
    var n := if step.Common? then step.common.n else step.user.n;
    var w1 := Apply(w, step);
    var uid := w.contents[n].refUid;
    assert ContentOk(w.log, n, w.contents[n]);
    assert n == DynamicContentName(uid) && n !in w1.contents && uid in w1.log.provisioned;
    if Present(w, uid) {
      SameDriverSamePresence(w, w1);
      assert !Claimed(w1, uid);
    } else {
      TimeoutLeaks(w1, n, uid);
    }
  }

  lemma TimeoutLeaks(w: World, n: string, uid: string)
    requires n == DynamicContentName(uid) && n !in w.contents && uid in w.log.provisioned && uid !in w.log.released
    requires n in w.passes && w.passes[n].AtCreateSnapshot? && w.passes[n].copy.refUid == uid
    requires uid != "" && w.passes[n].copy.volumeHandle.Some?
    ensures Enabled(w, AdvancePass(n, TIMEOUT)) && !NoLeak(Apply(w, AdvancePass(n, TIMEOUT)))
  {
    var w' := Apply(w, AdvancePass(n, TIMEOUT));
    assert Present(w', uid) && !Claimed(w', uid);
  }

  /** So tracking survives a step exactly when the step is no such deletion. */
  lemma TrackingSurvivesIff(w: World, step: Step)
    requires Base(w) && Tracked(w) && Enabled(w, step)
    ensures Tracked(Apply(w, step)) <==> !UnsafeDelete(w, step)
  {
    StepKeepsBase(w, step);
    if !UnsafeDelete(w, step) {
      StepKeepsTracking(w, step);
    } else if Tracked(Apply(w, step)) {
      var n := if step.Common? then step.common.n else step.user.n;
      var w1 := Apply(w, step);
      TrackedMeansNoLeak(w1);
      UnsafeDeleteLeaks(w, step);
      StepKeepsTracking(w1, AdvancePass(n, TIMEOUT));
      TrackedMeansNoLeak(Apply(w1, AdvancePass(n, TIMEOUT)));
      assert false;
    }
  }

  // ---- A run that leaks ----

  function EarlySteps(key: Key, uid: string, claim: string, class_: string): seq<Step> {
    var ck := Key(key.namespace, claim);
    var s := Snapshot(uid, Some(claim), None, Some(class_), None, false, [], None);
    [User(CreateClaim(ck, Claim(Bound, None, false, []))), User(CreateSnapshotObject(key, s)), Common(AddClaimFinalizer(ck))]
  }

  function NewContent(key: Key, uid: string, volume: string, driver: string, class_: string): Content {
    Content(key, uid, Some(volume), None, Delete, driver, Some(class_), false, [], map[], None)
  }

  /** The world after a claim and a snapshot were created and the claim got its finalizer. */
  lemma EarlyRun(w: World, key: Key, uid: string, claim: string, class_: string) returns (ws: seq<World>)
    requires Initial(w) && uid != ""
    ensures IsRun(ws, EarlySteps(key, uid, claim, class_)) && |ws| == 4 && ws[0] == w
    ensures var s := Snapshot(uid, Some(claim), None, Some(class_), None, false, [], None);
            ws[3] == w.(
              snapshots := map[key := s],
              claims := map[Key(key.namespace, claim) := Claim(Bound, None, false, [ClaimAsSource])],
              log := EMPTY_HISTORY.(keyOf := map[uid := key]))
  {
    var steps := EarlySteps(key, uid, claim, class_);
    var w1 := Apply(w, steps[0]);
    var w2 := Apply(w1, steps[1]);
    assert w2.snapshots == map[key := steps[1].user.snapshot] && w2.log == EMPTY_HISTORY.(keyOf := map[uid := key]);
    var w3 := Apply(w2, steps[2]);
    var held := Claim(Bound, None, false, [ClaimAsSource]);
    assert w3.claims[Key(key.namespace, claim)] == held;
    assert w3.claims == map[Key(key.namespace, claim) := held];
    ws := [w, w1, w2, w3];
  }

  function LateSteps(key: Key, n: string, c: Content): seq<Step> {
    [Common(CreateContent(key, c)), BeginPass(n, Inputs(true, true, true, true)), AdvancePass(n, ApiOk(0)),
     User(DeleteContentObject(n)), AdvancePass(n, TIMEOUT)]
  }

  /** The content is created and a pass over it sets the being-created annotation. */
  lemma AnnouncedRun(w: World, key: Key, c: Content) returns (ws: seq<World>)
    requires Enabled(w, Common(CreateContent(key, c))) && w.contents == map[] && w.passes == map[] && w.log.released == {}
    requires c.refUid != "" && c.policy == Delete && c.annotations == map[]
    ensures |ws| == 4 && ws[0] == w
    ensures var n := DynamicContentName(c.refUid);
            var steps := LateSteps(key, n, c);
            && (forall i | 0 <= i < 3 :: Enabled(ws[i], steps[i]) && ws[i + 1] == Apply(ws[i], steps[i]))
            && ws[3].contents == map[n := WithBeingCreated(c)] && ws[3].passes == map[n := AtCreateSnapshot(WithBeingCreated(c))]
            && ws[3].log.released == {} && c.refUid in ws[3].log.provisioned
  {
    var n := DynamicContentName(c.refUid);
    var steps := LateSteps(key, n, c);
    var w1 := Apply(w, steps[0]);
    assert w1.contents == map[n := c];
    var w2 := Apply(w1, steps[1]);
    assert w2.passes == map[n := AtSetBeingCreated(c, true)];
    assert Enabled(w2, steps[2]);
    var w3 := Apply(w2, steps[2]);
    ws := [w, w1, w2, w3];
  }

  /** Then the user deletes the content, which nothing protects yet, and the creation call times out. */
  lemma LateRun(w: World, key: Key, c: Content) returns (ws: seq<World>)
    requires Enabled(w, Common(CreateContent(key, c))) && w.contents == map[] && w.passes == map[] && w.log.released == {}
    requires c.refUid != "" && c.policy == Delete && c.annotations == map[]
    ensures |ws| == 6 && ws[0] == w && !NoLeak(ws[5])
    ensures var steps := LateSteps(key, DynamicContentName(c.refUid), c);
            forall i | 0 <= i < 5 :: Enabled(ws[i], steps[i]) && ws[i + 1] == Apply(ws[i], steps[i])
  {
    var n := DynamicContentName(c.refUid);
    var steps := LateSteps(key, n, c);
    ws := AnnouncedRun(w, key, c);
    var w4 := Apply(ws[3], steps[3]);
    assert n !in w4.contents && w4.passes == ws[3].passes;
    TimeoutLeaks(w4, n, c.refUid);
    ws := ws + [w4, Apply(w4, steps[4])];
  }

  /**
   The exception is real: whatever the names are, there is a run of eight steps from scratch, with
   nobody but users and the two controllers acting, after which a snapshot is nobody's.
   */
  lemma RunThatLeaks(w: World, key: Key, uid: string, claim: string, class_: string, volume: string, driver: string)
    requires Initial(w) && uid != ""
    ensures exists ws, steps :: IsRun(ws, steps) && ws[0] == w && |steps| == 8 && !NoLeak(ws[8])
  {
    var c := NewContent(key, uid, volume, driver, class_);
    var early := EarlyRun(w, key, uid, claim, class_);
    var late := LateRun(early[3], key, c);
    var ws := early + late[1..];
    var steps := EarlySteps(key, uid, claim, class_) + LateSteps(key, DynamicContentName(uid), c);
    forall i | 0 <= i < |steps| ensures Enabled(ws[i], steps[i]) && ws[i + 1] == Apply(ws[i], steps[i]) {
      if i >= 3 {
        assert ws[i] == late[i - 3] && ws[i + 1] == late[i - 2];
        assert steps[i] == LateSteps(key, DynamicContentName(uid), c)[i - 3];
      }
    }
    assert IsRun(ws, steps) && ws[8] == late[5];
  }
}
