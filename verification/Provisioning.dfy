/**
 Contents are made after their class: what a pass creates has the class's policy, and so, while
 every class says Retain, no run ever sends DeleteSnapshot for a dynamic content.
 */
module Provisioning {
  import opened Objects
  import opened Sidecar
  import opened Cluster
  import opened Common
  import opened Invariants
  import Leaks

  // ---- What a pass creates ----

  /** Every content among the writes is made after a class that exists. */
  ghost predicate AllByClass(made: seq<CommonStep>, l: Lookup) {
    forall i | 0 <= i < |made| && made[i].CreateContent? :: ByClass(made[i].content, l)
  }

  lemma CallByClass(c: Ctx, step: CommonStep, l: Lookup)
    requires CommonMakes(c.w, step) && AllByClass(c.made, l) && (step.CreateContent? ==> ByClass(step.content, l))
    ensures AllByClass(Call(c, step).ctx.made, l)
  {}

  lemma ErrorByClass(c: Ctx, l: Lookup, key: Key, s: Snapshot, notReady: bool, m: Message)
    requires AllByClass(c.made, l)
    ensures AllByClass(UpdateErrorStatus(c, l, key, s, notReady, m).ctx.made, l)
  {
    if key in c.w.snapshots && c.w.snapshots[key] == s {
      CallByClass(c, WriteSnapshotStatus(key, WithError(s.status, l.now, notReady, m)), l);
    }
  }

  lemma StatusByClass(c: Ctx, l: Lookup, key: Key, s: Snapshot, n: string, st: Option<ContentStatus>, notReady: bool)
    requires AllByClass(c.made, l)
    ensures AllByClass(UpdateStatusOrFail(c, l, key, s, n, st, notReady).ctx.made, l)
  {
    var u := UpdateStatus(c, l, key, n, st);
    assert AllByClass(u.ctx.made, l);
    ErrorByClass(u.ctx, l, key, s, notReady, StatusUpdateFailed);
  }

  lemma ClaimByClass(c: Ctx, l: Lookup, key: Key, s: Snapshot, skip: Option<Key>)
    requires AllByClass(c.made, l)
    ensures AllByClass(RemoveClaimProtection(c, key, s, skip).ctx.made, l)
  {}

  lemma CreationByClass(c: Ctx, l: Lookup, key: Key, s: Snapshot)
    requires Current(c.w, key, s) && !s.deleted && s.parent.None? && s.contentName.None? && s.claimName.Some?
    requires DynamicContentName(s.uid) !in c.w.contents && AllByClass(c.made, l)
    ensures AllByClass(CreateSnapshotContent(c, l, key, s).ctx.made, l)
  {
    var p := ProtectClaim(c, key, s);
    assert AllByClass(p.ctx.made, l);
    var content := NewContent(p.ctx.w, l, key, s);
    if p.ok && content.Some? {
      CallByClass(p.ctx, CreateContent(key, content.value), l);
    }
  }

  lemma PreprovisionedByClass(c: Ctx, l: Lookup, key: Key, s: Snapshot)
    requires Current(c.w, key, s) && !s.deleted && s.contentName.Some? && AllByClass(c.made, l)
    ensures AllByClass(SyncPreprovisioned(c, l, key, s).ctx.made, l)
  {
    match FindPreprovisioned(c.w, key, s) {
      case NoName =>
      case Missing => ErrorByClass(c, l, key, s, true, ContentMissing);
      case Unfit(m) => ErrorByClass(c, l, key, s, true, m);
      case Found(n) =>
        var st := c.w.contents[n].status;
        StatusByClass(c, l, key, s, n, st, false);
        var b := Call(c, BindContent(n, key, s.className));
        CallByClass(c, BindContent(n, key, s.className), l);
        ErrorByClass(b.ctx, l, key, s, true, BindFailed);
        StatusByClass(b.ctx, l, key, s, n, st, false);
    }
  }

  lemma DynamicByClass(c: Ctx, l: Lookup, key: Key, s: Snapshot)
    requires Current(c.w, key, s) && !s.deleted && s.contentName.None? && s.parent.None? && AllByClass(c.made, l)
    ensures AllByClass(SyncDynamic(c, l, key, s).ctx.made, l)
  {
    var found := FindDynamic(c.w, key, s);
    if found.Unfit? {
      ErrorByClass(c, l, key, s, true, found.message);
    } else if found.Found? {
      ErrorByClass(c, l, key, s, true, HandleSet);
      StatusByClass(c, l, key, c.w.snapshots[key], found.name, c.w.contents[found.name].status, true);
    } else if s.claimName.None? {
      ErrorByClass(c, l, key, s, true, SourceInvalid);
    } else {
      CreationByClass(c, l, key, s);
      var created := CreateSnapshotContent(c, l, key, s);
      ErrorByClass(created.ctx, l, key, s, true, CreationFailed);
      StatusByClass(created.ctx, l, key, s, DynamicContentName(s.uid), None, false);
    }
  }

  lemma UnreadyByClass(c: Ctx, l: Lookup, key: Key, s: Snapshot)
    requires Current(c.w, key, s) && !s.deleted && AllByClass(c.made, l)
    ensures AllByClass(SyncUnready(c, l, key, s).ctx.made, l)
  {
    if s.contentName.Some? {
      PreprovisionedByClass(c, l, key, s);
    } else if s.parent.Some? {
      if s.status.Some? && s.status.value.bound.Some? && s.status.value.bound.value in c.w.contents {
        var n := s.status.value.bound.value;
        StatusByClass(c, l, key, s, n, c.w.contents[n].status, false);
      }
    } else {
      DynamicByClass(c, l, key, s);
    }
  }

  lemma ReadyByClass(c: Ctx, l: Lookup, key: Key, s: Snapshot)
    requires Current(c.w, key, s) && IsSnapshotReady(s) && IsBoundNameSet(s) && AllByClass(c.made, l)
    ensures AllByClass(SyncReady(c, l, key, s).ctx.made, l)
  {
    ErrorByClass(c, l, key, s, true, ContentMissing);
    ErrorByClass(c, l, key, s, true, ContentMisbound);
  }

  lemma FinalizersByClass(c: Ctx, l: Lookup, key: Key, s: Snapshot)
    requires key in c.w.snapshots && c.w.snapshots[key] == s && !s.deleted && AllByClass(c.made, l)
    ensures AllByClass(AddFinalizers(c, l, key, s).ctx.made, l)
  {
    var found := if s.contentName.Some? then FindPreprovisioned(c.w, key, s) else FindDynamic(c.w, key, s);
    if found.Unfit? {
      ErrorByClass(c, l, key, s, true, found.message);
    }
  }

  lemma RemovalByClass(c: Ctx, l: Lookup, key: Key, s: Snapshot, bound: bool, group: bool)
    requires key in c.w.snapshots && c.w.snapshots[key] == s && s.deleted && (bound ==> !HoldsContent(c.w, key, s))
    requires group ==> s.status.Some? && s.status.value.groupName.Some?
                       && Key(key.namespace, s.status.value.groupName.value) !in c.w.groups
    requires AllByClass(c.made, l)
    ensures AllByClass(RemoveFinalizers(c, key, s, bound, group).ctx.made, l)
  {
    ClaimByClass(c, l, key, s, Some(key));
  }

  lemma ReleaseByClass(c: Ctx, l: Lookup, key: Key, s: Snapshot, n: string, group: bool)
    requires key in c.w.snapshots && c.w.snapshots[key] == s && s.deleted
    requires n == DeletionContentName(s) && n in c.w.contents && RefersTo(c.w.contents[n], key, s)
    requires group ==> s.status.Some? && s.status.value.groupName.Some?
                       && Key(key.namespace, s.status.value.groupName.value) !in c.w.groups
    requires AllByClass(c.made, l)
    ensures AllByClass(ReleaseContent(c, key, s, n, group).ctx.made, l)
  {
    var mark := MarkBeingDeleted(c, n, key);
    assert AllByClass(mark.ctx.made, l) && mark.ctx.w.snapshots == c.w.snapshots && mark.ctx.w.groups == c.w.groups;
    if mark.ok && c.w.contents[n].policy == Retain {
      RemovalByClass(mark.ctx, l, key, s, true, group);
    } else if mark.ok && n in mark.ctx.w.contents {
      var del := Call(mark.ctx, DeleteContent(n));
      CallByClass(mark.ctx, DeleteContent(n), l);
      if del.ok {
        RemovalByClass(del.ctx, l, key, s, false, group);
      }
    }
  }

  lemma DeletionByClass(c: Ctx, l: Lookup, key: Key, s: Snapshot)
    requires key in c.w.snapshots && c.w.snapshots[key] == s && s.deleted && AllByClass(c.made, l)
    ensures AllByClass(SyncDeleted(c, key, s).ctx.made, l)
  {
    var n := DeletionContentName(s);
    var group := if s.status.Some? then s.status.value.groupName else None;
    if !(group.Some? && Key(key.namespace, group.value) in c.w.groups) {
      if n in c.w.contents && RefersTo(c.w.contents[n], key, s) {
        ReleaseByClass(c, l, key, s, n, group.Some?);
      } else {
        RemovalByClass(c, l, key, s, true, group.Some?);
      }
    }
  }

  lemma SyncByClass(c: Ctx, l: Lookup, key: Key)
    requires key in c.w.snapshots && AllByClass(c.made, l)
    ensures AllByClass(SyncSnapshot(c, l, key).ctx.made, l)
  {
    var s := c.w.snapshots[key];
    ClaimByClass(c, l, key, s, None);
    var c1 := RemoveClaimProtection(c, key, s, None).ctx;
    if s.deleted {
      DeletionByClass(c1, l, key, s);
    } else {
      ErrorByClass(c1, l, key, s, true, SourceInvalid);
      FinalizersByClass(c1, l, key, s);
      var f := AddFinalizers(c1, l, key, s);
      if f.ok {
        UnreadyByClass(f.ctx, l, key, s);
        if IsSnapshotReady(s) && IsBoundNameSet(s) {
          ReadyByClass(f.ctx, l, key, s);
        }
      }
    }
  }

  /** Whatever becomes of its calls, a pass over a snapshot makes contents after existing classes only. */
  lemma PassesCreateByClass(w: World, fates: seq<Fate>, l: Lookup, key: Key)
    requires key in w.snapshots
    ensures AllByClass(SyncSnapshotByKey(Start(w, fates), l, key).ctx.made, l)
  {
    var c := Start(w, fates);
    ErrorByClass(c, l, key, w.snapshots[key], false, ClassMissing);
    SyncByClass(c, l, key);
    var e := UpdateErrorStatus(c, l, key, w.snapshots[key], false, ClassMissing).ctx;
    if key in e.w.snapshots {
      SyncByClass(e, l, key);
    }
  }

  // ---- Runs in which every class says Retain ----

  /** The step makes no Delete-policy content. */
  predicate CreatesRetained(step: Cluster.Step) {
    step.Common? && step.common.CreateContent? ==> step.common.content.policy == Retain
  }

  /** Passes make such steps only as long as all classes say so. */
  lemma RetainClassesCreateRetained(w: World, fates: seq<Fate>, l: Lookup, key: Key)
    requires key in w.snapshots && forall k <- l.classes :: l.classes[k].policy == Retain
    ensures forall step <- AsSteps(SyncSnapshotByKey(Start(w, fates), l, key).ctx.made) :: CreatesRetained(step)
  {
    PassesCreateByClass(w, fates, l, key);
  }

  predicate Retained(c: Content) {
    IsDynamic(c) ==> c.policy == Retain
  }

  ghost predicate AllRetained(w: World) {
    && (forall n :: n in w.contents ==> Retained(w.contents[n]))
    && (forall n :: n in w.passes && !w.passes[n].Done? ==> Retained(w.passes[n].copy))
  }

  lemma WriteKeepsRetained(w: World, step: Cluster.Step)
    requires Base(w) && AllRetained(w) && Enabled(w, step) && (step.Common? || step.Fan? || step.User?) && CreatesRetained(step)
    ensures AllRetained(Apply(w, step))
  {
    ApiWrites(w, step);
    var w' := Apply(w, step);
    forall n | n in w'.contents ensures Retained(w'.contents[n]) {
      if n !in w.contents {
        NewContentsAreRetained(w, step, n);
      }
    }
  }

  lemma NewContentsAreRetained(w: World, step: Cluster.Step, n: string)
    requires Enabled(w, step) && (step.Common? || step.Fan? || step.User?) && CreatesRetained(step)
    requires n !in w.contents && n in Apply(w, step).contents
    ensures Retained(Apply(w, step).contents[n])
  {
    if step.Common? {
      NewCommonContentIsRetained(w, step.common, n);
    } else if step.Fan? {
      NewFanContentIsRetained(w, step.fan, n);
    } else {
      NewUserContentIsRetained(w, step.user, n);
    }
  }

  lemma NewCommonContentIsRetained(w: World, step: CommonStep, n: string)
    requires CommonEnabled(w, step) && n !in w.contents && n in ApplyCommon(w, step).contents
    requires step.CreateContent? ==> step.content.policy == Retain
    ensures Retained(ApplyCommon(w, step).contents[n])
  {}

  lemma NewFanContentIsRetained(w: World, step: FanStep, n: string)
    requires FanEnabled(w, step) && n !in w.contents && n in ApplyFan(w, step).contents
    ensures Retained(ApplyFan(w, step).contents[n])
  {}

  lemma NewUserContentIsRetained(w: World, step: UserStep, n: string)
    requires UserEnabled(w, step) && n !in w.contents && n in ApplyUser(w, step).contents
    ensures Retained(ApplyUser(w, step).contents[n])
  {}

  /** A call changes neither policy nor kind, and the pass goes on with a copy it had or the content as stored. */
  lemma CallKeepsRetained(stored: Option<Content>, pc: Pc, a: Answer)
    requires !pc.Done? && Fits(pc, stored, a) && Retained(pc.copy) && (stored.Some? ==> Retained(stored.value))
    ensures stored.Some? ==> Retained(Written(pc, stored.value, a))
    ensures var next := Continue(pc, if stored.Some? then Some(Written(pc, stored.value, a)) else None, a);
            next.Done? || Retained(next.copy)
  {}

  lemma AdvanceKeepsRetained(w: World, n: string, a: Answer)
    requires AllRetained(w) && n in w.passes && !w.passes[n].Done? && Fits(w.passes[n], StoredContent(w, n), a)
    ensures AllRetained(Advance(w, n, w.passes[n], a))
  {
    AdvanceEffect(w, n, w.passes[n], a);
    CallKeepsRetained(StoredContent(w, n), w.passes[n], a);
  }

  lemma StepKeepsRetained(w: World, step: Cluster.Step)
    requires Base(w) && AllRetained(w) && Enabled(w, step) && CreatesRetained(step)
    ensures AllRetained(Apply(w, step))
  {
    match step {
      case BeginPass(n, inp) => BeginKeepsRetained(w.contents[n], inp);
      case AdvancePass(n, a) => AdvanceKeepsRetained(w, n, a);
      case Crash =>
      case FinishCreation(_, _) =>
      case _ => WriteKeepsRetained(w, step);
    }
  }

  lemma BeginKeepsRetained(c: Content, inp: Inputs)
    requires Retained(c)
    ensures Begin(c, inp).Done? || Retained(Begin(c, inp).copy)
  {}

  lemma {:induction false} RunsKeepRetained(ws: seq<World>, steps: seq<Cluster.Step>, i: nat)
    requires IsRun(ws, steps) && i < |ws| && forall j | 0 <= j < i :: CreatesRetained(steps[j])
    ensures AllRetained(ws[i])
  {
    if i > 0 {
      RunsKeepRetained(ws, steps, i - 1);
      Leaks.RunsKeepBase(ws, steps, i - 1);
      StepKeepsRetained(ws[i - 1], steps[i - 1]);
    }
  }

  /** As long as every content was made after a Retain class, no DeleteSnapshot is sent for a dynamic content. */
  lemma RetainedSnapshotsSurvive(ws: seq<World>, steps: seq<Cluster.Step>, i: nat, n: string)
    requires IsRun(ws, steps) && i < |steps| && forall j | 0 <= j < i :: CreatesRetained(steps[j])
    requires SendsDelete(ws[i], steps[i], n)
    ensures !IsDynamic(ws[i].passes[n].copy)
  {
    RunsKeepRetained(ws, steps, i);
    Leaks.RunsKeepBase(ws, steps, i);
    assert PassOk(ws[i], n, ws[i].passes[n]);
  }
}
