/**
 What every run keeps about the calls sent to the driver: no snapshot is deleted without
 its VolumeSnapshot being deleted first, group members are never handled one by one, and
 a UID never has two snapshots, nor a second one after the first was deleted.
 */
module Consent {
  import opened Objects
  import opened Sidecar
  import opened Cluster
  import opened Invariants
  import opened Leaks

  // ---- Deletion needs consent ----

  /** The step gave the snapshot with this UID its deletion timestamp. */
  predicate Condemns(w: World, step: Step, uid: string) {
    step.User? && step.user.DeleteSnapshotObject? && step.user.key in w.snapshots && w.snapshots[step.user.key].uid == uid
  }

  lemma CommonNeverCondemns(w: World, step: CommonStep)
    requires CommonEnabled(w, step)
    ensures ApplyCommon(w, step).log.condemned == w.log.condemned
  {}

  lemma FanNeverCondemns(w: World, step: FanStep)
    requires FanEnabled(w, step)
    ensures ApplyFan(w, step).log.condemned == w.log.condemned
  {}

  lemma PassesNeverCondemn(w: World, n: string, pc: Pc, a: Answer)
    requires Fits(pc, StoredContent(w, n), a)
    ensures Advance(w, n, pc, a).log.condemned == w.log.condemned
  {}

  lemma UsersCondemn(w: World, step: UserStep, uid: string)
    requires UserEnabled(w, step) && uid in ApplyUser(w, step).log.condemned && uid !in w.log.condemned
    ensures Condemns(w, User(step), uid)
  {}

  lemma OnlyUsersCondemn(w: World, step: Step, uid: string)
    requires Enabled(w, step) && uid in Apply(w, step).log.condemned && uid !in w.log.condemned
    ensures Condemns(w, step, uid)
  {
    match step {
      case Common(c) => CommonNeverCondemns(w, c);
      case Fan(f) => FanNeverCondemns(w, f);
      case User(u) => UsersCondemn(w, u, uid);
      case AdvancePass(n, a) => PassesNeverCondemn(w, n, w.passes[n], a);
      case BeginPass(_, _) =>
      case Crash =>
      case FinishCreation(_, _) =>
    }
  }

  /** Where an element enters a sequence of sets. */
  lemma Entry(sets: seq<set<string>>, i: nat, uid: string) returns (j: nat)
    requires i < |sets| && uid in sets[i] && uid !in sets[0]
    ensures j < i && uid !in sets[j] && uid in sets[j + 1]
  {
    j := i - 1;
    while uid in sets[j]
      invariant 0 <= j < i && uid in sets[j + 1]
      decreases j
    {
      j := j - 1;
    }
  }

  lemma CondemningStep(ws: seq<World>, steps: seq<Step>, i: nat, uid: string) returns (j: nat)
    requires IsRun(ws, steps) && i < |ws| && uid in ws[i].log.condemned
    ensures j < i && Condemns(ws[j], steps[j], uid)
  {
    var sets := seq(|ws|, k requires 0 <= k < |ws| => ws[k].log.condemned);
    j := Entry(sets, i, uid);
    OnlyUsersCondemn(ws[j], steps[j], uid);
  }

  /**
   The pass works for a content that asks for this: Delete policy, outside any group, bound to a snapshot that
   an earlier step deleted, or bound to none when the pass read it. The last case is the only way in which the
   content can be bound, when the call is sent, to a snapshot nobody deleted.
   */
  lemma DeletionNeedsConsent(ws: seq<World>, steps: seq<Step>, i: nat, n: string)
    requires IsRun(ws, steps) && i < |steps| && SendsDelete(ws[i], steps[i], n)
    ensures var c := ws[i].passes[n].copy;
            && c.policy == Delete && c.deleted && !IsGroupMember(c)
            && (c.refUid == "" ==> c.snapshotHandle.Some?)
            && (c.refUid != "" ==> exists j :: 0 <= j < i && Condemns(ws[j], steps[j], c.refUid))
            && (n in ws[i].contents && c.refUid != "" ==> ws[i].contents[n].refUid == c.refUid)
    ensures n in ws[i].contents && ws[i].contents[n].refUid != ""
            && (forall j | 0 <= j < i :: !Condemns(ws[j], steps[j], ws[i].contents[n].refUid))
            ==> ws[i].passes[n].copy.refUid == "" && ws[i].passes[n].copy.snapshotHandle.Some?
  {
    RunsKeepBase(ws, steps, i);
    var w := ws[i];
    assert PassOk(w, n, w.passes[n]);
    var c := w.passes[n].copy;
    if c.refUid != "" {
      assert BeingDeleted in c.annotations;
      var j := CondemningStep(ws, steps, i, c.refUid);
    }
  }

  /** A snapshot leaves the storage system in no other way. */
  lemma OnlyDeleteCallsDestroy(w: World, step: Step, h: string)
    requires Base(w) && Enabled(w, step) && h in w.physical && h !in Apply(w, step).physical
    ensures step.AdvancePass? && SendsDelete(w, step, step.n) && RpcHandle(w.passes[step.n].copy) == Some(h)
  {
    if step.Common? || step.Fan? || step.User? {
      ApiWrites(w, step);
    }
  }

  /** No data is lost: a physical snapshot disappears only with the consent above. */
  lemma NoDataLoss(ws: seq<World>, steps: seq<Step>, i: nat, h: string)
    requires IsRun(ws, steps) && i < |steps| && h in ws[i].physical && h !in ws[i + 1].physical
    ensures steps[i].AdvancePass? && SendsDelete(ws[i], steps[i], steps[i].n)
    ensures var c := ws[i].passes[steps[i].n].copy;
            && c.status.Some? && c.status.value.handle == Some(h) && c.policy == Delete && !IsGroupMember(c)
            && (c.refUid != "" ==> exists j :: 0 <= j < i && Condemns(ws[j], steps[j], c.refUid))
  {
    RunsKeepBase(ws, steps, i);
    OnlyDeleteCallsDestroy(ws[i], steps[i], h);
    DeletionNeedsConsent(ws, steps, i, steps[i].n);
    assert PassOk(ws[i], steps[i].n, ws[i].passes[steps[i].n]);
  }

  // ---- Group members are left alone ----

  /** Neither CreateSnapshot nor DeleteSnapshot is ever sent for a member of a group. */
  lemma MembersAreIsolated(ws: seq<World>, steps: seq<Step>, i: nat, n: string)
    requires IsRun(ws, steps) && i < |steps| && (SendsCreate(ws[i], steps[i], n) || SendsDelete(ws[i], steps[i], n))
    ensures !IsGroupMember(ws[i].passes[n].copy)
    ensures n in ws[i].contents ==> !IsGroupMember(ws[i].contents[n])
  {
    RunsKeepBase(ws, steps, i);
    assert PassOk(ws[i], n, ws[i].passes[n]);
  }

  // ---- One physical snapshot for a UID ----

  ghost predicate OneEach(w: World) {
    forall g, h, name :: Holder(w, g, name) && Holder(w, h, name) ==> g == h
  }

  lemma StepKeepsOneEach(w: World, step: Step)
    requires Base(w) && OneEach(w) && Enabled(w, step)
    ensures OneEach(Apply(w, step))
  {
    if step.Common? || step.Fan? || step.User? {
      ApiWrites(w, step);
    }
    var w' := Apply(w, step);
    forall g, h, name | Holder(w', g, name) && Holder(w', h, name) ensures g == h {
      assert h in w.physical && w.physical[h] == w'.physical[h] ==> Holder(w, h, name);
      assert g in w.physical && w.physical[g] == w'.physical[g] ==> Holder(w, g, name);
    }
  }

  /** The driver never holds two snapshots for one VolumeSnapshot, however often the call was repeated. */
  lemma {:induction false} OnePhysicalSnapshotPerUid(ws: seq<World>, steps: seq<Step>, i: nat)
    requires IsRun(ws, steps) && i < |ws|
    ensures forall uid, g, h :: Holder(ws[i], g, SnapshotName(ws[i].prefix, uid)) && Holder(ws[i], h, SnapshotName(ws[i].prefix, uid)) ==> g == h
    ensures OneEach(ws[i])
  {
    if i > 0 {
      OnePhysicalSnapshotPerUid(ws, steps, i - 1);
      RunsKeepBase(ws, steps, i - 1);
      StepKeepsOneEach(ws[i - 1], steps[i - 1]);
    }
  }

  /** A step leaves the immutable fields of a content alone. */
  lemma StepKeepsObject(w: World, step: Step, n: string)
    requires Base(w) && Enabled(w, step) && n in w.contents && n in Apply(w, step).contents
    ensures SameObject(w.contents[n], Apply(w, step).contents[n])
  {
    match step {
      case BeginPass(_, _) =>
      case AdvancePass(m, a) =>
        assert PassOk(w, m, w.passes[m]);
        AdvanceKeepsContents(w, m, a);
        if m == n {
          WrittenIsOk(w, n, w.passes[n], a);
        }
      case Crash =>
      case FinishCreation(_, _) =>
      case _ => ApiWrites(w, step);
    }
  }

  lemma SameObjectChain(c: Content, d: Content, e: Content)
    requires SameObject(c, d) && SameObject(d, e)
    ensures SameObject(c, e)
  {}

  lemma RunKeepsObject(ws: seq<World>, steps: seq<Step>, i: nat, n: string)
    requires IsRun(ws, steps) && i < |steps| && n in ws[i].contents && n in ws[i + 1].contents
    ensures SameObject(ws[i].contents[n], ws[i + 1].contents[n])
  {
    RunsKeepBase(ws, steps, i);
    StepKeepsObject(ws[i], steps[i], n);
  }

  lemma {:induction false} ObjectPersists(ws: seq<World>, steps: seq<Step>, i: nat, j: nat, n: string)
    requires IsRun(ws, steps) && i <= j < |ws| && forall k :: i <= k <= j ==> n in ws[k].contents
    ensures SameObject(ws[i].contents[n], ws[j].contents[n])
  {
    var k := i;
    while k < j
      invariant i <= k <= j && SameObject(ws[i].contents[n], ws[k].contents[n])
    {
      RunKeepsObject(ws, steps, k, n);
      SameObjectChain(ws[i].contents[n], ws[k].contents[n], ws[k + 1].contents[n]);
      k := k + 1;
    }
  }

  /** All CreateSnapshot calls for one content object carry the same name and the same volume. */
  lemma RetriesRepeatTheCall(ws: seq<World>, steps: seq<Step>, i: nat, j: nat, n: string)
    requires IsRun(ws, steps) && i <= j < |steps| && forall k :: i <= k <= j ==> n in ws[k].contents
    requires SendsCreate(ws[i], steps[i], n) && SendsCreate(ws[j], steps[j], n)
    ensures var c, d := ws[i].passes[n].copy, ws[j].passes[n].copy;
            && SnapshotName(ws[i].prefix, c.refUid) == SnapshotName(ws[j].prefix, d.refUid)
            && c.volumeHandle == d.volumeHandle
  {
    RunsKeepBase(ws, steps, i);
    RunsKeepBase(ws, steps, j);
    ObjectPersists(ws, steps, i, j, n);
    assert PassOk(ws[i], n, ws[i].passes[n]) && PassOk(ws[j], n, ws[j].passes[n]);
    DynamicContentNameInjective(ws[i].passes[n].copy.refUid, ws[j].passes[n].copy.refUid);
  }

  // ---- No creation after a deletion ----

  /** Once DeleteSnapshot was sent for a UID, its content can only be torn down. */
  ghost predicate Absorbed(w: World) {
    && w.log.destroyed <= w.log.condemned
    && (forall n :: n in w.contents && IsDynamic(w.contents[n]) && w.contents[n].refUid in w.log.destroyed ==> ShouldDelete(w.contents[n]))
    && (forall n :: n in w.passes && !w.passes[n].Done? && IsDynamic(w.passes[n].copy) ==> PassAbsorbed(w.log.destroyed, StoredContent(w, n), w.passes[n]))
  }

  predicate PassAbsorbed(gone: set<string>, stored: Option<Content>, pc: Pc) {
    if pc.Done? then true
    else if pc.AtDeleteSnapshot? then stored.Some? ==> BeingCreated !in stored.value.annotations
    else pc.AtClearStatus? || pc.AtRemoveFinalizer? || pc.copy.refUid !in gone
  }

  lemma WritesKeepAbsorbed(w: World, step: Step)
    requires Base(w) && Absorbed(w) && Enabled(w, step) && (step.Common? || step.Fan? || step.User?)
    ensures Absorbed(Apply(w, step))
  {
    var w' := Apply(w, step);
    ApiWrites(w, step);
    forall n | n in w'.contents && IsDynamic(w'.contents[n]) && w'.contents[n].refUid in w'.log.destroyed
      ensures ShouldDelete(w'.contents[n])
    {
      assert w'.contents[n].refUid in w.log.condemned;
      if n !in w.contents {
        NewContentsAreUncondemned(w, step, n);
      }
    }
    forall n | n in w'.passes && !w'.passes[n].Done? && IsDynamic(w'.passes[n].copy) ensures PassAbsorbed(w'.log.destroyed, StoredContent(w', n), w'.passes[n]) {
      assert PassAbsorbed(w.log.destroyed, StoredContent(w, n), w.passes[n]);
    }
  }

  lemma NewContentsAreUncondemned(w: World, step: Step, n: string)
    requires Base(w) && Enabled(w, step) && (step.Common? || step.Fan? || step.User?)
    requires n !in w.contents && n in Apply(w, step).contents && IsDynamic(Apply(w, step).contents[n])
    ensures Apply(w, step).contents[n].refUid !in w.log.condemned
  {
    match step {
      case Common(c) => NewCommonContents(w, c, n);
      case Fan(f) => NewFanContents(w, f, n);
      case User(u) => NewUserContents(w, u, n);
      case _ =>
    }
  }

  lemma NewCommonContents(w: World, step: CommonStep, n: string)
    requires SnapshotsOk(w) && CommonEnabled(w, step) && n !in w.contents && n in ApplyCommon(w, step).contents
    ensures ApplyCommon(w, step).contents[n].refUid !in w.log.condemned
  {
    assert step.CreateContent? && SnapshotOk(w.log, step.key, w.snapshots[step.key]);
  }

  lemma NewFanContents(w: World, step: FanStep, n: string)
    requires FanEnabled(w, step) && n !in w.contents && n in ApplyFan(w, step).contents
    ensures !IsDynamic(ApplyFan(w, step).contents[n])
  {}

  lemma NewUserContents(w: World, step: UserStep, n: string)
    requires UserEnabled(w, step) && n !in w.contents && n in ApplyUser(w, step).contents
    ensures !IsDynamic(ApplyUser(w, step).contents[n])
  {}

  lemma AdvanceKeepsAbsorbed(w: World, n: string, a: Answer)
    requires Base(w) && Absorbed(w) && n in w.passes && Fits(w.passes[n], StoredContent(w, n), a)
    ensures Absorbed(Advance(w, n, w.passes[n], a))
  {
    var pc := w.passes[n];
    var w' := Advance(w, n, pc, a);
    assert PassOk(w, n, pc) && (n in w.contents ==> ContentOk(w.log, n, w.contents[n]));
    AdvanceKeepsContents(w, n, a);
    AdvanceKeepsBase(w, n, a);
    AdvanceAbsorbsContent(w, n, a);
    AdvanceAbsorbsPass(w, n, a);
    AssembleAbsorbed(w, w', n, if IsDynamic(pc.copy) then {pc.copy.refUid} else {});
  }

  /** UIDs of `gone` had DeleteSnapshot sent; only the content and the pass called `n` could notice. */
  lemma AssembleAbsorbed(w: World, w': World, n: string, gone: set<string>)
    requires Base(w) && Absorbed(w) && Base(w') && w'.log.destroyed <= w.log.destroyed + gone
             && w'.log.destroyed <= w'.log.condemned
    requires forall u <- gone :: DynamicContentName(u) == n
    requires n in w'.contents && IsDynamic(w'.contents[n]) && w'.contents[n].refUid in w'.log.destroyed ==> ShouldDelete(w'.contents[n])
    requires n in w'.passes && !w'.passes[n].Done? && IsDynamic(w'.passes[n].copy) ==> PassAbsorbed(w'.log.destroyed, StoredContent(w', n), w'.passes[n])
    requires forall m :: m != n ==> (m in w'.contents <==> m in w.contents)
    requires forall m :: m != n && m in w.contents ==> w'.contents[m] == w.contents[m]
    requires forall m :: m != n && m in w'.passes ==> m in w.passes && w'.passes[m] == w.passes[m]
    ensures Absorbed(w')
  {
    forall m | m in w'.contents && IsDynamic(w'.contents[m]) && w'.contents[m].refUid in w'.log.destroyed
      ensures ShouldDelete(w'.contents[m])
    {
      assert m != n ==> ContentOk(w.log, m, w.contents[m]);
    }
    forall m | m in w'.passes && !w'.passes[m].Done? && IsDynamic(w'.passes[m].copy) ensures PassAbsorbed(w'.log.destroyed, StoredContent(w', m), w'.passes[m]) {
      assert m != n ==> PassOk(w, m, w.passes[m]) && PassAbsorbed(w.log.destroyed, StoredContent(w, m), w.passes[m]);
    }
  }

  /** What one call makes of the content and of the pass, when no other pass can interfere. */
  lemma CallAbsorbs(gone: set<string>, stored: Option<Content>, pc: Pc, a: Answer)
    requires !pc.Done? && Fits(pc, stored, a) && IsDynamic(pc.copy) && pc.copy.refUid != "" && PassAbsorbed(gone, stored, pc)
    requires pc.AtDeleteSnapshot? ==> ShouldDelete(pc.copy)
    requires stored.Some? ==> SameObject(pc.copy, stored.value) && HasOneSource(stored.value)
    requires stored.Some? && stored.value.refUid in gone ==> ShouldDelete(stored.value)
    ensures var gone' := if pc.AtDeleteSnapshot? then gone + {pc.copy.refUid} else gone;
            var stored' := if stored.Some? then Some(Written(pc, stored.value, a)) else None;
            && (stored'.Some? && stored'.value.refUid in gone' ==> ShouldDelete(stored'.value))
            && PassAbsorbed(gone', stored', Continue(pc, stored', a))
  {}

  lemma AdvanceAbsorbsContent(w: World, n: string, a: Answer)
    requires n in w.passes && Fits(w.passes[n], StoredContent(w, n), a) && PassOk(w, n, w.passes[n])
    requires w.log.destroyed <= w.log.condemned
    requires n in w.contents ==> ContentOk(w.log, n, w.contents[n])
    requires n in w.contents && IsDynamic(w.contents[n]) && w.contents[n].refUid in w.log.destroyed ==> ShouldDelete(w.contents[n])
    requires IsDynamic(w.passes[n].copy) ==> PassAbsorbed(w.log.destroyed, StoredContent(w, n), w.passes[n])
    ensures var w' := Advance(w, n, w.passes[n], a);
            && w'.log.destroyed <= w'.log.condemned
            && (n in w'.contents && IsDynamic(w'.contents[n]) && w'.contents[n].refUid in w'.log.destroyed ==> ShouldDelete(w'.contents[n]))
  {
    var pc := w.passes[n];
    if IsDynamic(pc.copy) {
      CallAbsorbs(w.log.destroyed, StoredContent(w, n), pc, a);
    } else if n in w.contents {
      assert !IsDynamic(Written(pc, w.contents[n], a));
    }
  }

  /** A pass over a content that is not dynamic stays one. */
  lemma CallStaysImported(stored: Option<Content>, pc: Pc, a: Answer)
    requires !pc.Done? && Fits(pc, stored, a) && !IsDynamic(pc.copy)
    requires stored.Some? ==> SameObject(pc.copy, stored.value)
    ensures var next := Continue(pc, if stored.Some? then Some(Written(pc, stored.value, a)) else None, a);
            next.Done? || !IsDynamic(next.copy)
  {}

  lemma AdvanceAbsorbsPass(w: World, n: string, a: Answer)
    requires n in w.passes && Fits(w.passes[n], StoredContent(w, n), a) && PassOk(w, n, w.passes[n])
    requires n in w.contents ==> ContentOk(w.log, n, w.contents[n])
    requires n in w.contents && IsDynamic(w.contents[n]) && w.contents[n].refUid in w.log.destroyed ==> ShouldDelete(w.contents[n])
    requires IsDynamic(w.passes[n].copy) ==> PassAbsorbed(w.log.destroyed, StoredContent(w, n), w.passes[n])
    ensures var w' := Advance(w, n, w.passes[n], a);
            n in w'.passes && !w'.passes[n].Done? && IsDynamic(w'.passes[n].copy)
            ==> PassAbsorbed(w'.log.destroyed, StoredContent(w', n), w'.passes[n])
  {
    NextIsAbsorbed(w.log.destroyed, StoredContent(w, n), w.passes[n], a);
  }

  /** The pass after the call, whether the content is still stored or was dropped. */
  lemma NextIsAbsorbed(gone: set<string>, stored: Option<Content>, pc: Pc, a: Answer)
    requires !pc.Done? && Fits(pc, stored, a) && (stored.Some? ==> SameObject(pc.copy, stored.value) && HasOneSource(stored.value))
    requires stored.Some? && IsDynamic(stored.value) && stored.value.refUid in gone ==> ShouldDelete(stored.value)
    requires IsDynamic(pc.copy) ==> pc.copy.refUid != "" && PassAbsorbed(gone, stored, pc) && (pc.AtDeleteSnapshot? ==> ShouldDelete(pc.copy))
    ensures var gone' := if pc.AtDeleteSnapshot? && IsDynamic(pc.copy) then gone + {pc.copy.refUid} else gone;
            var stored' := if stored.Some? then Some(Written(pc, stored.value, a)) else None;
            var next := Continue(pc, stored', a);
            !next.Done? && IsDynamic(next.copy) ==> PassAbsorbed(gone', stored', next) && PassAbsorbed(gone', None, next)
  {
    if IsDynamic(pc.copy) {
      CallAbsorbs(gone, stored, pc, a);
    } else {
      CallStaysImported(stored, pc, a);
    }
  }

  lemma NewPassAbsorbed(w: World, n: string, inp: Inputs)
    requires n in w.contents && ContentOk(w.log, n, w.contents[n])
    requires IsDynamic(w.contents[n]) && (w.contents[n].refUid in w.log.destroyed ==> ShouldDelete(w.contents[n]))
    ensures PassAbsorbed(w.log.destroyed, StoredContent(w, n), Begin(w.contents[n], inp))
  {}

  lemma BeginAbsorbs(w: World, n: string, inp: Inputs)
    requires Base(w) && Absorbed(w) && Enabled(w, BeginPass(n, inp))
    ensures Absorbed(Apply(w, BeginPass(n, inp)))
  {
    var w' := Apply(w, BeginPass(n, inp));
    forall m | m in w'.passes && !w'.passes[m].Done? && IsDynamic(w'.passes[m].copy) ensures PassAbsorbed(w'.log.destroyed, StoredContent(w', m), w'.passes[m]) {
      if m == n {
        BeginIsOk(w, n, inp);
        NewPassAbsorbed(w, n, inp);
      } else {
        assert PassAbsorbed(w.log.destroyed, StoredContent(w, m), w.passes[m]);
      }
    }
  }

  lemma StepKeepsAbsorbed(w: World, step: Step)
    requires Base(w) && Absorbed(w) && Enabled(w, step)
    ensures Absorbed(Apply(w, step))
  {
    match step {
      case BeginPass(n, inp) => BeginAbsorbs(w, n, inp);
      case AdvancePass(n, a) => AdvanceKeepsAbsorbed(w, n, a);
      case Crash =>
      case FinishCreation(_, _) =>
      case _ => WritesKeepAbsorbed(w, step);
    }
  }

  lemma {:induction false} RunsKeepAbsorbed(ws: seq<World>, steps: seq<Step>, i: nat)
    requires IsRun(ws, steps) && i < |ws|
    ensures Absorbed(ws[i])
  {
    if i > 0 {
      RunsKeepBase(ws, steps, i - 1);
      RunsKeepAbsorbed(ws, steps, i - 1);
      StepKeepsAbsorbed(ws[i - 1], steps[i - 1]);
    }
  }

  lemma RunKeepsDestroyed(ws: seq<World>, steps: seq<Step>, i: nat)
    requires IsRun(ws, steps) && i < |steps|
    ensures ws[i].log.destroyed <= ws[i + 1].log.destroyed
  {
    RunsKeepBase(ws, steps, i);
    StepKeepsBase(ws[i], steps[i]);
  }

  lemma DestroyedForever(ws: seq<World>, steps: seq<Step>, i: nat, j: nat)
    requires IsRun(ws, steps) && i <= j < |ws|
    ensures ws[i].log.destroyed <= ws[j].log.destroyed
  {
    var k := i;
    while k < j
      invariant i <= k <= j && ws[i].log.destroyed <= ws[k].log.destroyed
    {
      RunKeepsDestroyed(ws, steps, k);
      k := k + 1;
    }
  }

  /** No CreateSnapshot follows a DeleteSnapshot for the same UID, whatever fails in between. */
  lemma NoCreationAfterDeletion(ws: seq<World>, steps: seq<Step>, i: nat, j: nat, n: string)
    requires IsRun(ws, steps) && i < j < |steps|
    requires SendsDelete(ws[i], steps[i], n) && IsDynamic(ws[i].passes[n].copy)
    ensures !SendsCreate(ws[j], steps[j], n)
  {
    if SendsCreate(ws[j], steps[j], n) {
      RunsKeepBase(ws, steps, i);
      RunsKeepBase(ws, steps, j);
      RunsKeepAbsorbed(ws, steps, j);
      assert PassOk(ws[i], n, ws[i].passes[n]) && PassOk(ws[j], n, ws[j].passes[n]);
      DynamicContentNameInjective(ws[i].passes[n].copy.refUid, ws[j].passes[n].copy.refUid);
      DestroyedForever(ws, steps, i + 1, j);
      assert false;
    }
  }
}
