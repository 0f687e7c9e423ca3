/**
 Members of groups never get the bound finalizer: it is put on a snapshot whose content is found
 under the fixed name made from its UID, and contents of members have other names.
 */
module Members {
  import opened Objects
  import opened Sidecar
  import opened Cluster
  import opened Invariants
  import opened Leaks

  ghost predicate ContentsApart(w: World) {
    forall n :: n in w.contents && IsGroupMember(w.contents[n]) ==> DigestName(n)
  }

  /** A UID of a member is no UID of a snapshot a content was provisioned for, and was never noted as bound. */
  predicate UidsApart(g: History) {
    && g.provisioned !! g.memberUids && g.boundTo.Keys <= g.keyOf.Keys && g.boundTo.Keys !! g.memberUids
    && forall u <- g.memberUids :: '-' in u
  }

  predicate MemberSnapshotOk(g: History, s: Snapshot) {
    s.uid in g.memberUids ==> s.parent.Some? && s.contentName.None? && SnapshotBound !in s.finalizers
  }

  ghost predicate MembersApart(w: World) {
    ContentsApart(w) && UidsApart(w.log) && forall k :: k in w.snapshots ==> MemberSnapshotOk(w.log, w.snapshots[k])
  }

  // ---- The controller's writes ----

  /** What the lookup under the fixed name can find is no member's. */
  lemma LookupMissesMembers(w: World, key: Key)
    requires SnapshotsOk(w) && ContentsOk(w) && MembersApart(w) && key in w.snapshots
    requires CommonMakes(w, AddSnapshotFinalizers(key, false, true)) || CommonMakes(w, AddSnapshotFinalizers(key, true, true))
    ensures w.snapshots[key].uid !in w.log.memberUids
  {
    var s := w.snapshots[key];
    assert MemberSnapshotOk(w.log, s);
    var n := DynamicContentName(s.uid);
    assert n in w.contents ==> ContentOk(w.log, n, w.contents[n]);
    assert n[|CONTENT_PREFIX|..] == s.uid;
  }

  lemma FinalizersKeepApart(w: World, key: Key, source: bool, bound: bool)
    requires SnapshotsOk(w) && ContentsOk(w) && MembersApart(w) && CommonEnabled(w, AddSnapshotFinalizers(key, source, bound))
    ensures MembersApart(ApplyCommon(w, AddSnapshotFinalizers(key, source, bound)))
  {
    var w' := ApplyCommon(w, AddSnapshotFinalizers(key, source, bound));
    assert SnapshotOk(w.log, key, w.snapshots[key]) && MemberSnapshotOk(w.log, w.snapshots[key]);
    if bound {
      LookupMissesMembers(w, key);
    }
    forall k | k in w'.snapshots ensures MemberSnapshotOk(w'.log, w'.snapshots[k]) {
      assert k != key ==> MemberSnapshotOk(w.log, w.snapshots[k]);
    }
  }

  lemma SnapshotWritesKeepApart(w: World, step: CommonStep)
    requires MembersApart(w) && CommonEnabled(w, step)
    requires step.WriteSnapshotStatus? || step.AdoptSnapshot? || step.RemoveSnapshotFinalizers?
    ensures MembersApart(ApplyCommon(w, step))
  {
    var w' := ApplyCommon(w, step);
    assert MemberSnapshotOk(w.log, w.snapshots[step.key]);
    forall k | k in w'.snapshots ensures MemberSnapshotOk(w'.log, w'.snapshots[k]) {
      assert k != step.key ==> MemberSnapshotOk(w.log, w.snapshots[k]);
    }
  }

  lemma CreationKeepsApart(w: World, key: Key, c: Content)
    requires SnapshotsOk(w) && MembersApart(w) && CommonEnabled(w, CreateContent(key, c))
    ensures MembersApart(ApplyCommon(w, CreateContent(key, c)))
  {
    assert SnapshotOk(w.log, key, w.snapshots[key]) && MemberSnapshotOk(w.log, w.snapshots[key]);
    var w' := ApplyCommon(w, CreateContent(key, c));
    forall k | k in w'.snapshots ensures MemberSnapshotOk(w'.log, w'.snapshots[k]) {
      assert MemberSnapshotOk(w.log, w.snapshots[k]);
    }
  }

  /** Everything else leaves the snapshots alone and the contents as much members as they were. */
  lemma SameMembersStayApart(w: World, w': World)
    requires MembersApart(w) && w'.snapshots == w.snapshots
    requires w'.log.provisioned == w.log.provisioned && w'.log.memberUids == w.log.memberUids
    requires w'.log.boundTo == w.log.boundTo && w'.log.keyOf == w.log.keyOf
    requires forall n :: n in w'.contents && IsGroupMember(w'.contents[n]) ==> n in w.contents && IsGroupMember(w.contents[n])
    ensures MembersApart(w')
  {
    forall k | k in w'.snapshots ensures MemberSnapshotOk(w'.log, w'.snapshots[k]) {
      assert MemberSnapshotOk(w.log, w.snapshots[k]);
    }
  }

  lemma CommonKeepsApart(w: World, step: CommonStep)
    requires SnapshotsOk(w) && ContentsOk(w) && MembersApart(w) && CommonEnabled(w, step)
    ensures MembersApart(ApplyCommon(w, step))
  {
    if step.AddSnapshotFinalizers? {
      FinalizersKeepApart(w, step.key, step.source, step.bound);
    } else if step.WriteSnapshotStatus? || step.AdoptSnapshot? || step.RemoveSnapshotFinalizers? {
      SnapshotWritesKeepApart(w, step);
    } else if step.CreateContent? {
      CreationKeepsApart(w, step.key, step.content);
    } else {
      SameMembersStayApart(w, ApplyCommon(w, step));
    }
  }

  // ---- Everybody else ----

  /** A snapshot object with a fresh UID appears. */
  lemma NewSnapshotKeepsApart(w: World, w': World, key: Key, s: Snapshot)
    requires SnapshotsOk(w) && MembersApart(w) && s.uid !in w.log.keyOf && w'.contents == w.contents
    requires w'.snapshots == w.snapshots[key := s] && w'.log.boundTo == w.log.boundTo && w'.log.provisioned == w.log.provisioned
    requires w'.log.keyOf == w.log.keyOf[s.uid := key]
    requires w'.log.memberUids == w.log.memberUids
             || (w'.log.memberUids == w.log.memberUids + {s.uid} && '-' in s.uid && MemberSnapshotOk(w'.log, s))
    ensures MembersApart(w')
  {
    forall k | k in w'.snapshots ensures MemberSnapshotOk(w'.log, w'.snapshots[k]) {
      assert k != key ==> MemberSnapshotOk(w.log, w.snapshots[k]) && SnapshotOk(w.log, k, w.snapshots[k]);
    }
  }

  lemma FanKeepsApart(w: World, step: FanStep)
    requires SnapshotsOk(w) && MembersApart(w) && FanEnabled(w, step)
    ensures MembersApart(ApplyFan(w, step))
  {
    var w' := ApplyFan(w, step);
    match step {
      case CreateMemberContent(n, c) =>
        forall k | k in w'.snapshots ensures MemberSnapshotOk(w'.log, w'.snapshots[k]) {
          assert MemberSnapshotOk(w.log, w.snapshots[k]);
        }
      case CreateMemberSnapshot(key, s) => NewSnapshotKeepsApart(w, w', key, s);
      case BindMemberContent(_, _) => SameMembersStayApart(w, w');
      case BindMemberSnapshot(key, n) =>
        forall k | k in w'.snapshots ensures MemberSnapshotOk(w'.log, w'.snapshots[k]) {
          assert MemberSnapshotOk(w.log, w.snapshots[k]);
        }
      case WriteMemberStatus(_, _) => SameMembersStayApart(w, w');
    }
  }

  lemma UserKeepsApart(w: World, step: UserStep)
    requires SnapshotsOk(w) && MembersApart(w) && UserEnabled(w, step)
    ensures MembersApart(ApplyUser(w, step))
  {
    var w' := ApplyUser(w, step);
    if step.CreateSnapshotObject? {
      NewSnapshotKeepsApart(w, w', step.key, step.snapshot);
    } else if step.DeleteSnapshotObject? {
      forall k | k in w'.snapshots ensures MemberSnapshotOk(w'.log, w'.snapshots[k]) {
        assert MemberSnapshotOk(w.log, w.snapshots[k]);
      }
    } else {
      SameMembersStayApart(w, w');
    }
  }

  lemma AdvanceKeepsApart(w: World, n: string, a: Answer)
    requires Base(w) && MembersApart(w) && n in w.passes && Fits(w.passes[n], StoredContent(w, n), a)
    ensures MembersApart(Advance(w, n, w.passes[n], a))
  {
    assert PassOk(w, n, w.passes[n]);
    AdvanceEffect(w, n, w.passes[n], a);
    if n in w.contents {
      WrittenIsOk(w, n, w.passes[n], a);
    }
    SameMembersStayApart(w, Advance(w, n, w.passes[n], a));
  }

  lemma StepKeepsApart(w: World, step: Step)
    requires Base(w) && MembersApart(w) && Enabled(w, step)
    ensures MembersApart(Apply(w, step))
  {
    match step {
      case Common(c) => CommonKeepsApart(w, c);
      case Fan(f) => FanKeepsApart(w, f);
      case User(u) => UserKeepsApart(w, u);
      case AdvancePass(n, a) => AdvanceKeepsApart(w, n, a);
      case BeginPass(_, _) => SameMembersStayApart(w, Apply(w, step));
      case Crash => SameMembersStayApart(w, Apply(w, step));
      case FinishCreation(_, _) => SameMembersStayApart(w, Apply(w, step));
    }
  }

  lemma {:induction false} RunsKeepApart(ws: seq<World>, steps: seq<Step>, i: nat)
    requires IsRun(ws, steps) && i < |ws|
    ensures MembersApart(ws[i])
  {
    if i > 0 {
      RunsKeepApart(ws, steps, i - 1);
      RunsKeepBase(ws, steps, i - 1);
      StepKeepsApart(ws[i - 1], steps[i - 1]);
    }
  }

  /** In no run does a snapshot made by a group fan-out get the bound finalizer, even though it is bound to a content. */
  lemma MembersNeverGetBoundFinalizer(ws: seq<World>, steps: seq<Step>, i: nat, uid: string)
    requires IsRun(ws, steps) && i < |ws| && uid in ws[i].log.memberUids
    ensures uid !in ws[i].log.boundTo
    ensures forall key :: key in ws[i].snapshots && ws[i].snapshots[key].uid == uid ==> SnapshotBound !in ws[i].snapshots[key].finalizers
  {
    RunsKeepApart(ws, steps, i);
    forall key | key in ws[i].snapshots && ws[i].snapshots[key].uid == uid ensures SnapshotBound !in ws[i].snapshots[key].finalizers {
      assert MemberSnapshotOk(ws[i].log, ws[i].snapshots[key]);
    }
  }
}
