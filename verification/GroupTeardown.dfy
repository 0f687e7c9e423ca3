/**
 Group snapshots and their members: how membership is found, the deletion pass over a group
 snapshot, and which deleted groups leave their content behind.
 */
module GroupTeardown {
  import opened Objects
  import opened Common

  // ---- Membership by owner reference ----

  /** `ofGroupKind` says that kind and API version are those of group snapshots. */
  datatype OwnerReference = OwnerReference(ofGroupKind: bool, name: string)

  /** The first owner of the right kind, even if its name is empty. */
  function ParentName(owners: seq<OwnerReference>): string {
    if owners == [] then ""
    else if owners[0].ofGroupKind then owners[0].name else ParentName(owners[1..])
  }

  method GetVolumeGroupSnapshotParentObjectName(owners: seq<OwnerReference>) returns (name: string)
    ensures name == ParentName(owners)
  {
    for i := 0 to |owners|
      invariant ParentName(owners) == ParentName(owners[i..])
    {
      if owners[i].ofGroupKind {
        return owners[i].name;
      }
    }
    return "";
  }

  /** An owner reference appended later never takes the group's place. */
  lemma {:induction false} FirstParentStays(owners: seq<OwnerReference>, more: OwnerReference)
    requires exists o <- owners :: o.ofGroupKind
    ensures ParentName(owners + [more]) == ParentName(owners)
  {
    if !owners[0].ofGroupKind {
      assert forall o <- owners :: o == owners[0] || o in owners[1..];
      FirstParentStays(owners[1..], more);
      assert (owners + [more])[1..] == owners[1..] + [more];
    }
  }

  function ParentGroupKey(namespace: string, name: string): string {
    namespace + "^" + name
  }

  /** Members get their group's key; everything else gets the empty key. */
  function MemberKey(namespace: string, parent: Option<string>): string {
    if parent.None? then "" else ParentGroupKey(namespace, parent.value)
  }

  /** The group snapshot that owns an object, if one does. */
  function Parent(owners: seq<OwnerReference>): Option<string> {
    if ParentName(owners) == "" then None else Some(ParentName(owners))
  }

  predicate IsMember(k: Key, s: Snapshot, group: Key) {
    k.namespace == group.namespace && s.parent == Some(group.name)
  }

  /** Kubernetes names contain no caret, so the index brings together exactly the members of one group. */
  lemma IndexedIffMember(k: Key, s: Snapshot, owners: seq<OwnerReference>, group: Key)
    requires s.parent == Parent(owners) && '^' !in k.namespace && '^' !in group.namespace
    ensures MemberKey(k.namespace, s.parent) == ParentGroupKey(group.namespace, group.name) <==> IsMember(k, s, group)
    ensures IsMember(k, s, group)
            <==> ParentName(owners) != "" && ParentName(owners) == group.name && k.namespace == group.namespace
  {
    SameKeyIffMember(k, s, group);
  }

  lemma SameKeyIffMember(k: Key, s: Snapshot, group: Key)
    requires '^' !in k.namespace && '^' !in group.namespace
    ensures MemberKey(k.namespace, s.parent) == ParentGroupKey(group.namespace, group.name) <==> IsMember(k, s, group)
  {
    if MemberKey(k.namespace, s.parent) == ParentGroupKey(group.namespace, group.name) {
      assert s.parent.None? ==> |ParentGroupKey(group.namespace, group.name)| == 0;
      CaretSplits(k.namespace, s.parent.value, group.namespace, group.name);
    }
  }

  lemma CaretSplits(a: string, b: string, c: string, d: string)
    requires '^' !in a && '^' !in c && a + "^" + b == c + "^" + d
    ensures a == c && b == d
  {
    var s := a + "^" + b;
    assert s[|a|] == '^' && s[|c|] == '^';
    assert forall i | 0 <= i < |a| :: s[i] == a[i] && a[i] in a;
    assert forall i | 0 <= i < |c| :: s[i] == c[i] && c[i] in c;
    assert |a| == |c|;
    assert a == s[..|a|] && c == s[..|c|];
    assert b == s[|a| + 1..] && d == s[|c| + 1..];
  }

  // ---- Groups, their contents and their members ----

  /** `contentName` is set for a pre-provisioned group; `bound` is the name in the status. */
  datatype Group = Group(uid: string, deleted: bool, finalizers: seq<Finalizer>, bound: Option<string>, contentName: Option<string>)

  datatype GroupContent = GroupContent(refKey: Key, refUid: string, policy: DeletionPolicy, deleted: bool, beingDeleted: bool, finalizers: seq<Finalizer>)

  datatype State = State(groups: map<Key, Group>, contents: map<string, GroupContent>, snapshots: map<Key, Snapshot>, claims: map<Key, Claim>)

  /** The name of the content made for a dynamic group. */
  function DynamicGroupContentName(uid: string): string {
    "groupsnapcontent-" + uid
  }

  function BoundName(g: Group): string {
    if g.bound.Some? then g.bound.value else ""
  }

  predicate NeedsGroupBoundFinalizer(g: Group) {
    !g.deleted && GroupBound !in g.finalizers && BoundName(g) != ""
  }

  predicate IsGroupDeletionCandidate(g: Group) {
    g.deleted && GroupBound in g.finalizers
  }

  predicate PointsBack(c: GroupContent, key: Key, g: Group) {
    c.refKey == key && c.refUid == g.uid
  }

  /**
   The content a deleted group is torn down with, if it points back. The fixed name of a dynamic content is
   never tried: the guard meant for it compares the address of a field with nil, which is never equal.
   */
  predicate IsOwned(st: State, key: Key)
    requires key in st.groups
  {
    BoundName(st.groups[key]) in st.contents && PointsBack(st.contents[BoundName(st.groups[key])], key, st.groups[key])
  }

  predicate OwnsDeletable(st: State, key: Key)
    requires key in st.groups
  {
    IsOwned(st, key) && st.contents[BoundName(st.groups[key])].policy == Delete
  }

  ghost predicate BeingRestored(claims: map<Key, Claim>, k: Key) {
    exists ck :: ck in claims && RestoresFrom(ck, claims[ck], k)
  }

  function Members(m: map<Key, Snapshot>, key: Key): set<Key> {
    set k | k in m && IsMember(k, m[k], key)
  }

  /** Some member is being restored. */
  ghost predicate Busy(st: State, key: Key) {
    exists k <- Members(st.snapshots, key) :: BeingRestored(st.claims, k)
  }

  // ---- The deletion pass when no call fails ----

  /** The content is marked, and deleted if its policy says so. */
  function Released(m: map<string, GroupContent>, n: string): map<string, GroupContent>
    requires n in m
  {
    var c := m[n].(beingDeleted := true);
    if c.policy == Retain then m[n := c] else if c.finalizers == [] then m - {n} else m[n := c.(deleted := true)]
  }

  function WithDeleted(m: map<Key, Snapshot>, ks: set<Key>): map<Key, Snapshot> {
    map k | k in m && !(k in ks && m[k].finalizers == []) :: if k in ks then m[k].(deleted := true) else m[k]
  }

  function WithoutBound(m: map<Key, Group>, key: Key): map<Key, Group>
    requires key in m
  {
    var g := m[key].(finalizers := Without(m[key].finalizers, GroupBound));
    if g.deleted && g.finalizers == [] then m - {key} else m[key := g]
  }

  ghost function TornDown(st: State, key: Key): State
    requires key in st.groups && st.groups[key].deleted
  {
    if !IsGroupDeletionCandidate(st.groups[key]) || Busy(st, key) then st
    else
      st.(groups := if OwnsDeletable(st, key) then st.groups else WithoutBound(st.groups, key),
          contents := if IsOwned(st, key) then Released(st.contents, BoundName(st.groups[key])) else st.contents,
          snapshots := WithDeleted(st.snapshots, Members(st.snapshots, key)))
  }

  /** `c` was marked, a Delete-policy content also deleted, and nothing else happened to it; it is gone only then, and unprotected. */
  predicate LetGo(c: GroupContent, m: map<string, GroupContent>, n: string) {
    && (n in m <==> c.policy == Retain || c.finalizers != [])
    && (n in m ==> m[n].beingDeleted && (if c.policy == Delete then m[n].deleted else m[n].deleted == c.deleted))
    && (n in m ==> m[n].(beingDeleted := c.beingDeleted, deleted := c.deleted) == c)
  }

  /** A pass, wherever it stops, at most marks a Retain content. */
  predicate RetainHeld(c: GroupContent, m: map<string, GroupContent>, n: string) {
    c.policy == Retain ==> n in m && m[n].(beingDeleted := c.beingDeleted) == c
  }

  /**
   A content that points back at a deleted group, under the name the group is bound to or the one made for
   it, is let go in a pass exactly when the group has the bound finalizer and that name, and none of its
   members is being restored.
   */
  lemma ContentLetGoIff(st: State, key: Key, n: string)
    requires key in st.groups && st.groups[key].deleted && n in st.contents && PointsBack(st.contents[n], key, st.groups[key])
    requires n == BoundName(st.groups[key]) || n == "groupsnapcontent-" + st.groups[key].uid
    requires !st.contents[n].beingDeleted
    ensures LetGo(st.contents[n], TornDown(st, key).contents, n)
            <==> GroupBound in st.groups[key].finalizers && n == BoundName(st.groups[key]) && !Busy(st, key)
    ensures !LetGo(st.contents[n], TornDown(st, key).contents, n) ==> n in TornDown(st, key).contents && TornDown(st, key).contents[n] == st.contents[n]
  {}

  // ---- Whole lives of groups ----

  /** Writes of the controller, acts of users, and whole passes over a deleted group. */
  datatype GroupAct =
    | RequestGroup(key: Key, group: Group)
    | CreateGroupContent(key: Key, policy: DeletionPolicy)
    | BindGroup(key: Key, n: string)
    | ProtectGroup(key: Key)
    | DeleteGroup(key: Key)
    | TearDown(key: Key)
    | ProtectGroupContent(n: string)
    | DeleteGroupContent(n: string)

  predicate CanAct(st: State, act: GroupAct) {
    match act
    case RequestGroup(key, g) =>
      && key !in st.groups && g.uid != "" && !g.deleted && g.bound.None? && (forall f <- g.finalizers :: f.OtherFinalizer?)
      && (forall n <- st.contents :: st.contents[n].refUid != g.uid) && (forall k <- st.groups :: st.groups[k].uid != g.uid)
    case CreateGroupContent(key, _) =>
      && key in st.groups && !st.groups[key].deleted && st.groups[key].contentName.None?
      && DynamicGroupContentName(st.groups[key].uid) !in st.contents
    case BindGroup(key, n) =>
      && key in st.groups && !st.groups[key].deleted && st.groups[key].bound.None?
      && n != "" && n in st.contents && PointsBack(st.contents[n], key, st.groups[key])
    case ProtectGroup(key) => key in st.groups && NeedsGroupBoundFinalizer(st.groups[key])
    case DeleteGroup(key) => key in st.groups
    case TearDown(key) => key in st.groups && st.groups[key].deleted
    case ProtectGroupContent(n) => n in st.contents && !st.contents[n].deleted && GroupContentBound !in st.contents[n].finalizers
    case DeleteGroupContent(n) => n in st.contents
  }

  ghost function Acted(st: State, act: GroupAct): State
    requires CanAct(st, act)
  {
    match act
    case RequestGroup(key, g) => st.(groups := st.groups[key := g])
    case CreateGroupContent(key, policy) =>
      var uid := st.groups[key].uid;
      st.(contents := st.contents[DynamicGroupContentName(uid) := GroupContent(key, uid, policy, false, false, [])])
    case BindGroup(key, n) => st.(groups := st.groups[key := st.groups[key].(bound := Some(n))])
    case ProtectGroup(key) => st.(groups := st.groups[key := st.groups[key].(finalizers := st.groups[key].finalizers + [GroupBound])])
    case DeleteGroup(key) =>
      st.(groups := if st.groups[key].finalizers == [] then st.groups - {key} else st.groups[key := st.groups[key].(deleted := true)])
    case TearDown(key) => TornDown(st, key)
    case ProtectGroupContent(n) =>
      st.(contents := st.contents[n := st.contents[n].(finalizers := st.contents[n].finalizers + [GroupContentBound])])
    case DeleteGroupContent(n) =>
      st.(contents := if st.contents[n].finalizers == [] then st.contents - {n} else st.contents[n := st.contents[n].(deleted := true)])
  }

  ghost predicate IsHistory(sts: seq<State>, acts: seq<GroupAct>) {
    && |sts| == |acts| + 1
    && forall i | 0 <= i < |acts| :: CanAct(sts[i], acts[i]) && sts[i + 1] == Acted(sts[i], acts[i])
  }

  /** The bound finalizer is on bound groups only. */
  ghost predicate BoundFirst(st: State) {
    forall key :: key in st.groups && GroupBound in st.groups[key].finalizers ==> BoundName(st.groups[key]) != ""
  }

  lemma ActKeepsBoundFirst(st: State, act: GroupAct)
    requires BoundFirst(st) && CanAct(st, act)
    ensures BoundFirst(Acted(st, act))
  {}

  lemma {:induction false} HistoriesKeepBoundFirst(sts: seq<State>, acts: seq<GroupAct>, i: nat)
    requires IsHistory(sts, acts) && BoundFirst(sts[0]) && i < |sts|
    ensures BoundFirst(sts[i])
  {
    if i > 0 {
      HistoriesKeepBoundFirst(sts, acts, i - 1);
      ActKeepsBoundFirst(sts[i - 1], acts[i - 1]);
    }
  }

  /** The content is as it was made, and the group it points at is gone, or deleted without the bound finalizer. */
  ghost predicate Stranded(st: State, n: string, key: Key, uid: string) {
    && n in st.contents && st.contents[n].refUid == uid && st.contents[n].refKey == key
    && !st.contents[n].beingDeleted && !st.contents[n].deleted
    && (key in st.groups && st.groups[key].uid == uid ==> st.groups[key].deleted && GroupBound !in st.groups[key].finalizers)
  }

  lemma ActKeepsStranded(st: State, act: GroupAct, n: string, key: Key, uid: string)
    requires Stranded(st, n, key, uid) && CanAct(st, act) && act != DeleteGroupContent(n)
    ensures Stranded(Acted(st, act), n, key, uid)
  {}

  /**
   A group deleted before its status names its content never becomes a candidate for the deletion pass, and
   the content made for it is neither marked nor deleted, whatever happens, until a user deletes it.
   */
  lemma {:induction false} UnboundDeletionStrands(sts: seq<State>, acts: seq<GroupAct>, i: nat, j: nat, n: string, key: Key)
    requires IsHistory(sts, acts) && BoundFirst(sts[0]) && i < j < |sts| && acts[i] == DeleteGroup(key)
    requires sts[i].groups[key].bound.None? && n in sts[i].contents && PointsBack(sts[i].contents[n], key, sts[i].groups[key])
    requires !sts[i].contents[n].beingDeleted && !sts[i].contents[n].deleted
    requires forall k | i < k < j :: acts[k] != DeleteGroupContent(n)
    ensures Stranded(sts[j], n, key, sts[i].groups[key].uid)
    decreases j
  {
    HistoriesKeepBoundFirst(sts, acts, i);
    if i + 1 < j {
      UnboundDeletionStrands(sts, acts, i, j - 1, n, key);
      ActKeepsStranded(sts[j - 1], acts[j - 1], n, key, sts[i].groups[key].uid);
    }
  }

  /** It takes three acts: the group is requested, its content made, and the group deleted before its status is written. */
  lemma HistoryThatStrands(key: Key, uid: string, other: Finalizer)
    requires uid != "" && other.OtherFinalizer?
    ensures var g := Group(uid, false, [other], None, None);
            exists sts: seq<State> ::
              && IsHistory(sts, [RequestGroup(key, g), CreateGroupContent(key, Delete), DeleteGroup(key)])
              && sts[0] == State(map[], map[], map[], map[]) && Stranded(sts[3], DynamicGroupContentName(uid), key, uid)
              && key in sts[3].groups && sts[3].groups[key].deleted
              && sts[3].contents[DynamicGroupContentName(uid)].policy == Delete && TornDown(sts[3], key) == sts[3]
  {
    var g := Group(uid, false, [other], None, None);
    var acts := [RequestGroup(key, g), CreateGroupContent(key, Delete), DeleteGroup(key)];
    var st0 := State(map[], map[], map[], map[]);
    var st1 := Acted(st0, acts[0]);
    var st2 := Acted(st1, acts[1]);
    var sts := [st0, st1, st2, Acted(st2, acts[2])];
    assert IsHistory(sts, acts);
  }

  // ---- The code ----

  class GroupController {
    var groups: map<Key, Group>
    var contents: map<string, GroupContent>
    var snapshots: map<Key, Snapshot>
    var claims: map<Key, Claim>
    // What becomes of the API calls to come; all fine when there are none left.
    var fates: seq<Fate>

    ghost function Now(): State
      reads this
    {
      State(groups, contents, snapshots, claims)
    }

    method Call() returns (applied: bool, ok: bool)
      modifies this`fates
      ensures ok ==> applied
      ensures old(fates) == [] ==> ok && fates == []
    {
      if fates == [] {
        return true, true;
      }
      var fate := fates[0];
      fates := fates[1..];
      return fate != Rejected, fate == Fine;
    }

    method IsVolumeBeingCreatedFromSnapshot(k: Key) returns (restoring: bool)
      ensures restoring == BeingRestored(claims, k)
    {
      var rest := claims.Keys;
      while rest != {}
        invariant rest <= claims.Keys
        invariant forall ck <- claims.Keys - rest :: !RestoresFrom(ck, claims[ck], k)
        decreases |rest|
      {
        var ck :| ck in rest;
        rest := rest - {ck};
        if ck.namespace == k.namespace && claims[ck].restores == Some(k.name) {
          if claims[ck].phase == Pending {
            return true;
          }
        }
      }
      return false;
    }

    /** Namespaces are DNS labels. */
    ghost predicate NoCarets(key: Key)
      reads this
    {
      '^' !in key.namespace && forall k <- snapshots :: '^' !in k.namespace
    }

    /** What the index holds under the group's key: the members, all of them and nothing else. */
    method FindGroupSnapshotMembers(key: Key) returns (members: seq<Key>)
      requires NoCarets(key)
      ensures forall k :: k in members <==> k in Members(snapshots, key)
    {
      members := [];
      var rest := snapshots.Keys;
      while rest != {}
        invariant rest <= snapshots.Keys
        invariant forall k :: k in members <==> k in Members(snapshots, key) && k !in rest
        decreases |rest|
      {
        var k :| k in rest;
        rest := rest - {k};
        SameKeyIffMember(k, snapshots[k], key);
        if MemberKey(k.namespace, snapshots[k].parent) == ParentGroupKey(key.namespace, key.name) {
          members := members + [k];
        }
      }
    }

    method AnyMemberIsBeingRestored(key: Key, members: seq<Key>) returns (busy: bool)
      requires forall k :: k in members <==> k in Members(snapshots, key)
      ensures busy == Busy(Now(), key)
    {
      for i := 0 to |members|
        invariant forall j | 0 <= j < i :: !BeingRestored(claims, members[j])
      {
        assert members[i] in Members(snapshots, key);
        var k := Key(key.namespace, members[i].name);
        if k !in snapshots {
          continue;
        }
        var restoring := IsVolumeBeingCreatedFromSnapshot(k);
        if restoring {
          return true;
        }
      }
      return false;
    }

    /** The member is gone or on its way. */
    predicate Leaving(k: Key)
      reads this
    {
      k in snapshots ==> snapshots[k].deleted
    }

    method DeleteMembers(key: Key, members: seq<Key>) returns (ok: bool)
      requires forall k <- members :: k.namespace == key.namespace
      modifies this`snapshots, this`fates
      ensures ok ==> snapshots == WithDeleted(old(snapshots), set k <- members)
      ensures exists done :: done <= (set k <- members) && snapshots == WithDeleted(old(snapshots), done)
      ensures old(fates) == [] ==> ok && fates == []
    {
      ghost var done: set<Key> := {};
      assert snapshots == WithDeleted(snapshots, done);
      for i := 0 to |members|
        invariant done == set k <- members[..i]
        invariant snapshots == WithDeleted(old(snapshots), done)
        invariant old(fates) == [] ==> fates == []
      {
        var k := Key(key.namespace, members[i].name);
        assert k == members[i];
        var applied, accepted := Call();
        if applied {
          DeletedOneMore(old(snapshots), done, k);
          snapshots := WithDeleted(snapshots, {k});
          done := done + {k};
        }
        if !accepted {
          return false;
        }
        assert members[..i + 1] == members[..i] + [k];
      }
      assert members[..|members|] == members;
      return true;
    }

    lemma DeletedOneMore(m: map<Key, Snapshot>, done: set<Key>, k: Key)
      ensures WithDeleted(WithDeleted(m, done), {k}) == WithDeleted(m, done + {k})
    {}

    /** Marks the content, and deletes it if its policy says so. */
    method ReleaseGroupContent(n: string) returns (ok: bool)
      requires n in contents
      modifies this`contents, this`fates
      ensures ok ==> LetGo(old(contents[n]), contents, n)
      ensures RetainHeld(old(contents[n]), contents, n)
      ensures forall m :: m != n ==> (m in contents <==> m in old(contents)) && (m in contents ==> contents[m] == old(contents[m]))
      ensures n in contents ==> contents[n].(beingDeleted := old(contents[n]).beingDeleted, deleted := old(contents[n]).deleted) == old(contents[n])
      ensures n !in contents ==> old(contents[n]).policy == Delete
      ensures old(fates) == [] ==> ok && fates == [] && contents == Released(old(contents), n)
    {
      var delete := contents[n].policy == Delete;
      if !contents[n].beingDeleted {
        var applied, accepted := Call();
        if applied {
          contents := contents[n := contents[n].(beingDeleted := true)];
        }
        if !accepted {
          return false;
        }
      }
      if delete {
        var applied, accepted := Call();
        if applied {
          contents := if contents[n].finalizers == [] then contents - {n} else contents[n := contents[n].(deleted := true)];
        }
        if !accepted {
          return false;
        }
      }
      return true;
    }

    method RemoveGroupSnapshotFinalizer(key: Key) returns (ok: bool)
      requires key in groups && groups[key].deleted
      modifies this`groups, this`fates
      ensures ok ==> groups == WithoutBound(old(groups), key)
      ensures groups == old(groups) || groups == WithoutBound(old(groups), key)
      ensures old(fates) == [] ==> ok && fates == []
    {
      var applied, accepted := Call();
      if applied {
        var finalizers := RemoveString(groups[key].finalizers, GroupBound);
        groups := if finalizers == [] then groups - {key} else groups[key := groups[key].(finalizers := finalizers)];
      }
      return accepted;
    }

    /** The group is there with the bound finalizer. */
    predicate Bound(key: Key)
      reads this
    {
      key in groups && GroupBound in groups[key].finalizers
    }

    /** Nothing of the group is touched before a content that points back is let go. */
    ghost predicate ContentFirst(before: State, key: Key)
      reads this
      requires key in before.groups
    {
      (snapshots != before.snapshots || groups != before.groups) && IsOwned(before, key) ==>
        LetGo(before.contents[BoundName(before.groups[key])], contents, BoundName(before.groups[key]))
    }

    /** First the members, then the group itself if `removeBoundFinalizer` says so. */
    method LetMembersGo(key: Key, members: seq<Key>, removeBoundFinalizer: bool) returns (ok: bool)
      requires key in groups && IsGroupDeletionCandidate(groups[key])
      requires forall k :: k in members <==> k in Members(snapshots, key)
      modifies this`groups, this`snapshots, this`fates
      ensures old(fates) == [] ==>
                && ok && fates == [] && snapshots == WithDeleted(old(snapshots), Members(old(snapshots), key))
                && groups == if removeBoundFinalizer then WithoutBound(old(groups), key) else old(groups)
      ensures exists done :: done <= Members(old(snapshots), key) && snapshots == WithDeleted(old(snapshots), done)
      ensures groups == old(groups)
              || (removeBoundFinalizer && groups == WithoutBound(old(groups), key)
                  && snapshots == WithDeleted(old(snapshots), Members(old(snapshots), key)))
    {
      assert (set k <- members) == Members(snapshots, key);
      ok := DeleteMembers(key, members);
      if !ok {
        return;
      }
      if removeBoundFinalizer {
        ok := RemoveGroupSnapshotFinalizer(key);
      }
    }

    /** Lets go, in this order, the content, the members, and the group itself unless its content has to go first. */
    method LetGroupGo(key: Key, members: seq<Key>) returns (ok: bool)
      requires key in groups && IsGroupDeletionCandidate(groups[key])
      requires forall k :: k in members <==> k in Members(snapshots, key)
      modifies this`groups, this`contents, this`snapshots, this`fates
      ensures old(fates) == [] ==> ok && fates == []
      ensures old(fates) == [] && !old(Busy(Now(), key)) ==> Now() == TornDown(old(Now()), key)
      ensures ContentFirst(old(Now()), key)
      ensures !Bound(key) ==>
                && (forall k <- Members(old(snapshots), key) :: Leaving(k))
                && !old(OwnsDeletable(Now(), key))
      ensures exists done :: done <= Members(old(snapshots), key) && snapshots == WithDeleted(old(snapshots), done)
      ensures old(BoundName(groups[key]) in contents) ==>
                RetainHeld(old(contents[BoundName(groups[key])]), contents, old(BoundName(groups[key])))
      ensures forall n :: n != old(BoundName(groups[key])) ==> (n in contents <==> n in old(contents)) && (n in contents ==> contents[n] == old(contents[n]))
      ensures forall k :: k != key ==> (k in groups <==> k in old(groups)) && (k in groups ==> groups[k] == old(groups[k]))
    {
      var g := groups[key];
      var n := BoundName(g);
      var pointsBack := n in contents && PointsBack(contents[n], key, g);
      var delete := pointsBack && contents[n].policy == Delete;
      assert snapshots == WithDeleted(snapshots, {});
      if pointsBack {
        ok := ReleaseGroupContent(n);
        if !ok {
          return;
        }
      }
      ok := LetMembersGo(key, members, !delete);
    }

    /**
     One deletion pass. Without faults it does what TornDown says. Whatever becomes of its calls, nothing is
     touched while a member is being restored, the content is let go before anything else, and the bound finalizer
     goes only in a pass that saw every member deleted or gone and found no Delete-policy content pointing back.
     */
    method ProcessGroupSnapshotWithDeletionTimestamp(key: Key) returns (ok: bool)
      requires key in groups && groups[key].deleted && NoCarets(key)
      modifies this
      ensures claims == old(claims)
      ensures old(fates) == [] ==> ok && Now() == TornDown(old(Now()), key)
      ensures old(Busy(Now(), key)) || !old(Bound(key)) ==> Now() == old(Now()) && ok
      ensures ContentFirst(old(Now()), key)
      ensures old(Bound(key)) && !Bound(key) ==>
                && (forall k <- Members(old(snapshots), key) :: Leaving(k))
                && !old(OwnsDeletable(Now(), key)) && !old(Busy(Now(), key))
      ensures exists done :: done <= Members(old(snapshots), key) && snapshots == WithDeleted(old(snapshots), done)
      ensures old(BoundName(groups[key]) in contents) ==>
                RetainHeld(old(contents[BoundName(groups[key])]), contents, old(BoundName(groups[key])))
      ensures forall n :: n != old(BoundName(groups[key])) ==> (n in contents <==> n in old(contents)) && (n in contents ==> contents[n] == old(contents[n]))
      ensures forall k :: k != key ==> (k in groups <==> k in old(groups)) && (k in groups ==> groups[k] == old(groups[k]))
    {
      assert snapshots == WithDeleted(snapshots, {});
      if !IsGroupDeletionCandidate(groups[key]) {
        return true;
      }
      var members := FindGroupSnapshotMembers(key);
      var busy := AnyMemberIsBeingRestored(key, members);
      if busy {
        return true;
      }
      ok := LetGroupGo(key, members);
    }
  }
}
