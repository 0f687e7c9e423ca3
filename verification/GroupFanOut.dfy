/**
 The fan-out of a group snapshot: one VolumeSnapshot and one VolumeSnapshotContent for each
 volume, created and bound by calls any of which may be the last before a crash.
 */
module GroupFanOut {
  import opened Objects
  import opened Cluster
  import opened Invariants

  datatype Info = Info(volumeHandle: string, snapshotHandle: string, created: Option<int>, size: Option<int>, ready: Option<bool>)

  /** What the group snapshot and its content say; `claims` are the claims found by volume handle. */
  datatype Plan = Plan(
    group: Key,
    groupUid: string,
    groupHandle: Option<string>,
    policy: DeletionPolicy,
    driver: string,
    secrets: Option<Annotations>,
    claims: map<string, string>,
    hash: string -> string,
    infos: seq<Info>)

  const SNAPSHOT_PREFIX := "snapshot-"

  function Digest(p: Plan, info: Info): string {
    p.hash(p.groupUid + info.volumeHandle)
  }

  function ContentName(p: Plan, info: Info): string {
    CONTENT_PREFIX + Digest(p, info)
  }

  function SnapshotKey(p: Plan, info: Info): Key {
    Key(p.group.namespace, SNAPSHOT_PREFIX + Digest(p, info))
  }

  /** The names depend on the group and the volume alone, so that every run of the fan-out finds what an earlier one made. */
  lemma NamesOfAPair(p: Plan, info: Info)
    ensures ContentName(p, info) == "snapcontent-" + p.hash(p.groupUid + info.volumeHandle)
    ensures SnapshotKey(p, info) == Key(p.group.namespace, "snapshot-" + p.hash(p.groupUid + info.volumeHandle))
  {}

  /** No two entries share a digest. */
  predicate Separate(p: Plan) {
    forall i, j | 0 <= i < j < |p.infos| :: Digest(p, p.infos[i]) != Digest(p, p.infos[j])
  }

  /** Digests are hexadecimal. */
  predicate Hexadecimal(p: Plan, info: Info) {
    '-' !in Digest(p, info)
  }

  /** Distinct volumes under a hash without collisions among them. */
  lemma DistinctVolumesAreSeparate(p: Plan)
    requires forall i, j | 0 <= i < j < |p.infos| :: p.infos[i].volumeHandle != p.infos[j].volumeHandle
    requires forall i, j | 0 <= i < j < |p.infos| ::
               Digest(p, p.infos[i]) == Digest(p, p.infos[j]) ==> p.groupUid + p.infos[i].volumeHandle == p.groupUid + p.infos[j].volumeHandle
    ensures Separate(p)
  {
    forall i, j | 0 <= i < j < |p.infos| ensures Digest(p, p.infos[i]) != Digest(p, p.infos[j]) {
      assert (p.groupUid + p.infos[i].volumeHandle)[|p.groupUid|..] == p.infos[i].volumeHandle;
      assert (p.groupUid + p.infos[j].volumeHandle)[|p.groupUid|..] == p.infos[j].volumeHandle;
    }
  }

  lemma SeparateNames(p: Plan, a: Info, b: Info)
    requires Digest(p, a) != Digest(p, b)
    ensures ContentName(p, a) != ContentName(p, b) && SnapshotKey(p, a) != SnapshotKey(p, b)
  {
    var u, v := Digest(p, a), Digest(p, b);
    assert u == (CONTENT_PREFIX + u)[|CONTENT_PREFIX|..] && v == (CONTENT_PREFIX + v)[|CONTENT_PREFIX|..];
    assert u == (SNAPSHOT_PREFIX + u)[|SNAPSHOT_PREFIX|..] && v == (SNAPSHOT_PREFIX + v)[|SNAPSHOT_PREFIX|..];
  }

  // ---- What is created ----

  function MemberContent(p: Plan, info: Info): Content
    requires p.groupHandle.Some? && p.secrets.Some?
  {
    Content(SnapshotKey(p, info), "", Some(info.volumeHandle), None, p.policy, p.driver, None, false, [],
            p.secrets.value[GroupHandle := p.groupHandle.value], None)
  }

  /** Without a volume on record the claim name is left empty. */
  function MemberSnapshot(p: Plan, info: Info, uid: string): Snapshot {
    Snapshot(uid, Some(if info.volumeHandle in p.claims then p.claims[info.volumeHandle] else ""), None, None,
             Some(p.group.name), false, [SnapshotInGroup], None)
  }

  function MemberStatus(p: Plan, info: Info): ContentStatus {
    ContentStatus(Some(info.snapshotHandle), info.ready, info.created, info.size, None, p.groupHandle)
  }

  // ---- What a fan-out achieves ----

  /** Objects under the entry's names, if any, come from an earlier fan-out of this group. */
  predicate Ours(w: World, p: Plan, info: Info) {
    && (ContentName(p, info) in w.contents ==>
          OurContent(w.contents[ContentName(p, info)], p, info))
    && (SnapshotKey(p, info) in w.snapshots ==>
          w.snapshots[SnapshotKey(p, info)].uid in w.log.memberUids && w.snapshots[SnapshotKey(p, info)].parent == Some(p.group.name))
  }

  predicate OurContent(c: Content, p: Plan, info: Info) {
    IsGroupMember(c) && c.refKey == SnapshotKey(p, info) && c.volumeHandle == Some(info.volumeHandle)
  }

  /** The status has what the driver said of this entry, and the handle of the group. */
  predicate Reports(st: Option<ContentStatus>, p: Plan, info: Info) {
    && st.Some? && st.value.handle == Some(info.snapshotHandle) && st.value.groupHandle == p.groupHandle
    && st.value.ready == info.ready && st.value.created == info.created && st.value.size == info.size && st.value.error.None?
  }

  /** Policy and driver are those of the group content, and the annotations name the group's handle besides the secrets. */
  ghost predicate MadeContent(c: Content, p: Plan) {
    && c.policy == p.policy && c.driver == p.driver && c.className.None? && c.snapshotHandle.None?
    && p.groupHandle.Some? && p.secrets.Some? && GroupHandle in c.annotations && c.annotations[GroupHandle] == p.groupHandle.value
    && forall k :: k != GroupHandle ==>
         (k in c.annotations <==> k in p.secrets.value) && (k in c.annotations ==> c.annotations[k] == p.secrets.value[k])
  }

  /** Taken from the claim of the volume, owned by the group and held by it. */
  predicate MadeSnapshot(s: Snapshot, p: Plan, info: Info) {
    && s.claimName == Some(if info.volumeHandle in p.claims then p.claims[info.volumeHandle] else "")
    && s.contentName.None? && s.className.None? && s.parent == Some(p.group.name) && !s.deleted && s.finalizers == [SnapshotInGroup]
  }

  /** The entry's objects are made as above if they are new, and change in their binding and status only if they are not. */
  ghost predicate Built(w: World, w': World, p: Plan, info: Info) {
    var n, key := ContentName(p, info), SnapshotKey(p, info);
    && (n in w'.contents ==>
          if n in w.contents
          then w'.contents[n].(refUid := w.contents[n].refUid, status := w.contents[n].status) == w.contents[n]
          else MadeContent(w'.contents[n], p))
    && (key in w'.snapshots ==>
          if key in w.snapshots then w'.snapshots[key].(status := w.snapshots[key].status) == w.snapshots[key]
          else MadeSnapshot(w'.snapshots[key], p, info))
  }

  lemma BuiltChain(w0: World, w1: World, w2: World, p: Plan, info: Info)
    requires Built(w0, w1, p, info) && Built(w1, w2, p, info)
    requires ContentName(p, info) in w0.contents ==> ContentName(p, info) in w1.contents
    requires SnapshotKey(p, info) in w0.snapshots ==> SnapshotKey(p, info) in w1.snapshots
    ensures Built(w0, w2, p, info)
  {}

  /** Snapshot and content exist, point at each other, and the content carries the handles of the entry and of the group. */
  predicate Settled(w: World, p: Plan, info: Info) {
    var n, key := ContentName(p, info), SnapshotKey(p, info);
    && n in w.contents && key in w.snapshots
    && RefersTo(w.contents[n], key, w.snapshots[key])
    && w.snapshots[key].status.Some? && w.snapshots[key].status.value.bound == Some(n)
    && Reports(w.contents[n].status, p, info)
    && OurContent(w.contents[n], p, info) && w.snapshots[key].parent == Some(p.group.name)
  }

  /** Nothing changes but under the names of the entry. */
  ghost predicate OnlyEntry(w: World, w': World, p: Plan, info: Info) {
    && (forall m :: m != ContentName(p, info) ==> (m in w'.contents <==> m in w.contents) && (m in w.contents ==> w'.contents[m] == w.contents[m]))
    && (forall k :: k != SnapshotKey(p, info) ==> (k in w'.snapshots <==> k in w.snapshots) && (k in w.snapshots ==> w'.snapshots[k] == w.snapshots[k]))
    && (ContentName(p, info) in w.contents ==> ContentName(p, info) in w'.contents)
    && (SnapshotKey(p, info) in w.snapshots ==> SnapshotKey(p, info) in w'.snapshots)
    && w'.passes == w.passes && w.log.memberUids <= w'.log.memberUids
  }

  predicate AllFresh(uids: seq<string>, w: World) {
    (forall u <- uids :: '-' in u && u !in w.log.keyOf) && forall i, j | 0 <= i < j < |uids| :: uids[i] != uids[j]
  }

  lemma TakeFresh(uids: seq<string>, w: World)
    requires uids != [] && AllFresh(uids, w)
    ensures '-' in uids[0] && uids[0] !in w.log.keyOf && uids[0] !in uids[1..] && AllFresh(uids[1..], w)
  {
    assert uids[0] in uids && forall u <- uids[1..] :: u in uids;
  }

  /** The well-formedness every reachable world has. */
  ghost predicate WellFormed(w: World) {
    SnapshotsOk(w) && ContentsOk(w)
  }

  class FanOut {
    var world: World
    // What becomes of the calls to come: whether applied, whether acknowledged. All fine when none are left.
    var fates: seq<(bool, bool)>
    // UIDs the API server will hand out.
    var uids: seq<string>
    const plan: Plan

    ghost predicate Ready()
      reads this
    {
      WellFormed(world) && AllFresh(uids, world) && (plan.secrets.Some? ==> OnlySecretAnnotations(plan.secrets.value, false))
    }

    method Write(step: FanStep) returns (ok: bool)
      requires Ready() && FanMakes(world, step) && (step.CreateMemberSnapshot? ==> step.snapshot.uid !in uids)
      modifies this`world, this`fates
      ensures Ready() && (world == old(world) || world == ApplyFan(old(world), step))
      ensures ok ==> world == ApplyFan(old(world), step)
      ensures old(fates) == [] ==> ok == FanNameIsFree(old(world), step) && fates == []
    {
      var fate := (true, true);
      if fates != [] {
        fate, fates := fates[0], fates[1..];
      }
      if !FanNameIsFree(world, step) {
        return false;
      }
      if fate.0 || fate.1 {
        FanWrites(world, step);
        world := ApplyFan(world, step);
      }
      return fate.1;
    }

    method CreateOrGetContent(info: Info) returns (ok: bool)
      requires Ready() && Ours(world, plan, info) && plan.groupHandle.Some? && plan.secrets.Some? && Hexadecimal(plan, info)
      modifies this`world, this`fates
      ensures Ready() && OnlyEntry(old(world), world, plan, info) && Ours(world, plan, info)
      ensures Built(old(world), world, plan, info)
      ensures ok ==> ContentName(plan, info) in world.contents
      ensures old(fates) == [] && ContentName(plan, info) !in old(world).passes ==> ok && fates == []
    {
      var n := ContentName(plan, info);
      if n in world.contents {
        return true;
      }
      ok := Write(CreateMemberContent(n, MemberContent(plan, info)));
    }

    method CreateOrGetSnapshot(info: Info) returns (ok: bool)
      requires Ready() && Ours(world, plan, info) && uids != [] && ContentName(plan, info) in world.contents
      modifies this`world, this`fates, this`uids
      ensures Ready() && OnlyEntry(old(world), world, plan, info) && Ours(world, plan, info)
      ensures Built(old(world), world, plan, info)
      ensures ok ==> SnapshotKey(plan, info) in world.snapshots
      ensures world.contents == old(world).contents
      ensures |uids| >= |old(uids)| - 1
      ensures old(fates) == [] ==> ok && fates == []
    {
      var key := SnapshotKey(plan, info);
      if key in world.snapshots {
        return true;
      }
      var s := MemberSnapshot(plan, info, uids[0]);
      TakeFresh(uids, world);
      uids := uids[1..];
      ok := Write(CreateMemberSnapshot(key, s));
    }

    /** Writes of the entry's own objects leave everything else alone. */
    method BindContentToSnapshot(info: Info) returns (ok: bool)
      requires Ready() && Ours(world, plan, info)
      requires ContentName(plan, info) in world.contents && SnapshotKey(plan, info) in world.snapshots
      modifies this`world, this`fates
      ensures Ready() && OnlyEntry(old(world), world, plan, info) && Ours(world, plan, info)
      ensures Built(old(world), world, plan, info)
      ensures ok ==> RefersTo(world.contents[ContentName(plan, info)], SnapshotKey(plan, info), world.snapshots[SnapshotKey(plan, info)])
      ensures world.snapshots == old(world).snapshots
      ensures old(fates) == [] ==> ok && fates == []
    {
      ok := Write(BindMemberContent(ContentName(plan, info), world.snapshots[SnapshotKey(plan, info)].uid));
    }

    method BindSnapshotToContent(info: Info) returns (ok: bool)
      requires Ready() && Ours(world, plan, info)
      requires ContentName(plan, info) in world.contents && SnapshotKey(plan, info) in world.snapshots
      requires RefersTo(world.contents[ContentName(plan, info)], SnapshotKey(plan, info), world.snapshots[SnapshotKey(plan, info)])
      modifies this`world, this`fates
      ensures Ready() && OnlyEntry(old(world), world, plan, info) && Ours(world, plan, info)
      ensures Built(old(world), world, plan, info)
      ensures world.contents == old(world).contents
      ensures world.snapshots[SnapshotKey(plan, info)].uid == old(world).snapshots[SnapshotKey(plan, info)].uid
      ensures ok ==> var s := world.snapshots[SnapshotKey(plan, info)];
                     s.status.Some? && s.status.value.bound == Some(ContentName(plan, info))
      ensures old(fates) == [] ==> ok && fates == []
    {
      ok := Write(BindMemberSnapshot(SnapshotKey(plan, info), ContentName(plan, info)));
    }

    method UpdateContentStatus(info: Info) returns (ok: bool)
      requires Ready() && Ours(world, plan, info) && plan.groupHandle.Some?
      requires ContentName(plan, info) in world.contents && SnapshotKey(plan, info) in world.snapshots
      requires var s := world.snapshots[SnapshotKey(plan, info)];
               s.status.Some? && s.status.value.bound == Some(ContentName(plan, info))
      modifies this`world, this`fates
      ensures Ready() && OnlyEntry(old(world), world, plan, info) && Ours(world, plan, info)
      ensures Built(old(world), world, plan, info)
      ensures world.snapshots == old(world).snapshots
      ensures world.contents[ContentName(plan, info)].(status := old(world).contents[ContentName(plan, info)].status)
              == old(world).contents[ContentName(plan, info)]
      ensures ok ==> Reports(world.contents[ContentName(plan, info)].status, plan, info)
      ensures old(fates) == [] ==> ok && fates == []
    {
      ok := Write(WriteMemberStatus(ContentName(plan, info), MemberStatus(plan, info)));
    }

    /** Binds the pair both ways and then records what the driver said of it. */
    method BindPair(info: Info) returns (ok: bool)
      requires Ready() && Ours(world, plan, info) && plan.groupHandle.Some?
      requires ContentName(plan, info) in world.contents && SnapshotKey(plan, info) in world.snapshots
      modifies this`world, this`fates
      ensures Ready() && OnlyEntry(old(world), world, plan, info) && Ours(world, plan, info)
      ensures Built(old(world), world, plan, info)
      ensures ok ==> Settled(world, plan, info)
      ensures old(fates) == [] ==> ok && fates == []
    {
      ok := BindContentToSnapshot(info);
      if !ok {
        return;
      }
      ok := BindSnapshotToContent(info);
      if !ok {
        return;
      }
      ok := UpdateContentStatus(info);
    }

    method CreateIndividualSnapshot(info: Info) returns (ok: bool)
      requires Ready() && Ours(world, plan, info) && uids != [] && plan.groupHandle.Some? && plan.secrets.Some?
      requires Hexadecimal(plan, info)
      modifies this`world, this`fates, this`uids
      ensures Ready() && OnlyEntry(old(world), world, plan, info) && Ours(world, plan, info)
      ensures Built(old(world), world, plan, info)
      ensures ok ==> Settled(world, plan, info)
      ensures |uids| >= |old(uids)| - 1
      ensures old(fates) == [] && ContentName(plan, info) !in old(world).passes ==> ok && fates == []
    {
      ok := CreateOrGetContent(info);
      if !ok {
        return;
      }
      ok := CreateOrGetSnapshot(info);
      if !ok {
        return;
      }
      ok := BindPair(info);
    }

    /** All objects under the plan's names are this fan-out's. */
    ghost predicate AllOurs()
      reads this
    {
      forall i | 0 <= i < |plan.infos| :: Ours(world, plan, plan.infos[i])
    }

    /** No sidecar pass is under way over an object that is yet to be created. */
    ghost predicate Undisturbed()
      reads this
    {
      fates == [] && forall i | 0 <= i < |plan.infos| :: ContentName(plan, plan.infos[i]) !in world.passes
    }

    /** One entry's turn leaves the others as they were. */
    lemma EntryKeepsOthers(before: World, i: nat)
      requires i < |plan.infos| && Separate(plan) && OnlyEntry(before, world, plan, plan.infos[i])
      requires forall j | 0 <= j < |plan.infos| :: Ours(before, plan, plan.infos[j])
      requires Ours(world, plan, plan.infos[i])
      ensures AllOurs()
      ensures forall j | 0 <= j < |plan.infos| && j != i ::
                Built(before, world, plan, plan.infos[j])
                && (Settled(before, plan, plan.infos[j]) ==> Settled(world, plan, plan.infos[j]))
    {
      forall j | 0 <= j < |plan.infos| && j != i
        ensures Ours(world, plan, plan.infos[j]) && Built(before, world, plan, plan.infos[j])
        ensures Settled(before, plan, plan.infos[j]) ==> Settled(world, plan, plan.infos[j])
      {
        SeparateNames(plan, plan.infos[j], plan.infos[i]);
      }
    }

    /**
     Wherever the run stops, what it leaves is fit for another one; a run in which nothing fails settles every
     entry, and only planned names are added or touched.
     */
    method CreateSnapshotsForGroupSnapshotContent() returns (ok: bool)
      requires Ready() && AllOurs() && Separate(plan) && |uids| >= |plan.infos|
      requires forall i | 0 <= i < |plan.infos| :: Hexadecimal(plan, plan.infos[i])
      modifies this`world, this`fates, this`uids
      ensures Ready() && AllOurs() && OnlyPlanned(old(world), world, plan)
      ensures ok && plan.groupHandle.Some? ==> AllSettled(world, plan)
      ensures AllBuilt(old(world), world, plan)
      ensures old(Undisturbed()) && (plan.secrets.Some? || plan.groupHandle.None?) ==> ok
    {
      if plan.infos == [] || plan.groupHandle.None? {
        return true;
      }
      if plan.secrets.None? {
        return false;
      }
      for i := 0 to |plan.infos|
        invariant Ready() && AllOurs() && |uids| >= |plan.infos| - i
        invariant OnlyPlanned(old(world), world, plan) && AllBuilt(old(world), world, plan)
        invariant forall j | 0 <= j < i :: Settled(world, plan, plan.infos[j])
        invariant old(Undisturbed()) ==> fates == []
      {
        ghost var before := world;
        ok := CreateIndividualSnapshot(plan.infos[i]);
        EntryKeepsOthers(before, i);
        EntryIsPlanned(old(world), before, world, plan, i);
        AllBuiltChain(old(world), before, world, plan);
        if !ok {
          return;
        }
      }
      return true;
    }
  }

  ghost predicate AllSettled(w: World, p: Plan) {
    forall i | 0 <= i < |p.infos| :: Settled(w, p, p.infos[i])
  }

  ghost predicate AllBuilt(w: World, w': World, p: Plan) {
    forall i | 0 <= i < |p.infos| :: Built(w, w', p, p.infos[i])
  }

  lemma AllBuiltChain(w0: World, w1: World, w2: World, p: Plan)
    requires AllBuilt(w0, w1, p) && AllBuilt(w1, w2, p)
    requires (forall n :: n in w0.contents ==> n in w1.contents) && (forall k :: k in w0.snapshots ==> k in w1.snapshots)
    ensures AllBuilt(w0, w2, p)
  {
    forall i | 0 <= i < |p.infos| ensures Built(w0, w2, p, p.infos[i]) {
      BuiltChain(w0, w1, w2, p, p.infos[i]);
    }
  }

  ghost predicate Planned(p: Plan, n: string) {
    exists i | 0 <= i < |p.infos| :: ContentName(p, p.infos[i]) == n
  }

  ghost predicate PlannedKey(p: Plan, k: Key) {
    exists i | 0 <= i < |p.infos| :: SnapshotKey(p, p.infos[i]) == k
  }

  /** Objects are added or touched under planned names only, and none disappears. */
  ghost predicate OnlyPlanned(w: World, w': World, p: Plan) {
    && w'.passes == w.passes
    && (forall n :: n in w'.contents && !Planned(p, n) ==> n in w.contents && w'.contents[n] == w.contents[n])
    && (forall n :: n in w.contents ==> n in w'.contents)
    && (forall k :: k in w'.snapshots && !PlannedKey(p, k) ==> k in w.snapshots && w'.snapshots[k] == w.snapshots[k])
    && (forall k :: k in w.snapshots ==> k in w'.snapshots)
  }

  lemma EntryIsPlanned(w0: World, w1: World, w2: World, p: Plan, i: nat)
    requires i < |p.infos| && OnlyPlanned(w0, w1, p) && OnlyEntry(w1, w2, p, p.infos[i])
    ensures OnlyPlanned(w0, w2, p)
  {
    assert Planned(p, ContentName(p, p.infos[i])) && PlannedKey(p, SnapshotKey(p, p.infos[i]));
  }

  /** Once every entry is settled, another run finds every name taken and adds no object. */
  lemma AnotherRunAddsNothing(w: World, w': World, p: Plan)
    requires AllSettled(w, p) && OnlyPlanned(w, w', p)
    ensures w'.contents.Keys == w.contents.Keys && w'.snapshots.Keys == w.snapshots.Keys
  {
    forall n | n in w'.contents ensures n in w.contents {
      if Planned(p, n) {
        var i :| 0 <= i < |p.infos| && ContentName(p, p.infos[i]) == n;
        assert Settled(w, p, p.infos[i]);
      }
    }
    forall k | k in w'.snapshots ensures k in w.snapshots {
      if PlannedKey(p, k) {
        var i :| 0 <= i < |p.infos| && SnapshotKey(p, p.infos[i]) == k;
        assert Settled(w, p, p.infos[i]);
      }
    }
  }

  /** Distinct entries settle on distinct objects, so there is exactly one pair for each. */
  lemma OnePairEach(w: World, p: Plan, i: nat, j: nat)
    requires Separate(p) && i < j < |p.infos|
    ensures ContentName(p, p.infos[i]) != ContentName(p, p.infos[j])
    ensures SnapshotKey(p, p.infos[i]) != SnapshotKey(p, p.infos[j])
  {
    SeparateNames(p, p.infos[i], p.infos[j]);
  }
}
