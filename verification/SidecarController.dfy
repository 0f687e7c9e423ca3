/**
 The CSI sidecar as it runs: straight-line code over one content, making one call after
 another. It is proved to be the pass of module Sidecar run without interference, so that
 cutting the pass at every call adds behaviour but changes none.
 */
module SidecarControllers {
  import opened Objects
  import opened Sidecar

  class SidecarController {
    // The content as the API server has it.
    var server: Option<Content>
    // How many calls were made so far.
    var calls: nat
    const env: Env
    const inputs: Inputs

    constructor (c: Option<Content>, e: Env, inp: Inputs)
      ensures server == c && calls == 0 && env == e && inputs == inp
    {
      server, calls, env, inputs := c, 0, e, inp;
    }

    /** How everything ends if the rest of the pass starts at `pc` now. */
    ghost function Rest(pc: Pc): Ended
      reads this
    {
      Finish(env, calls, pc, server)
    }

    /** One call; `latest` is the content as the call returns it. */
    method Call(pc: Pc) returns (a: Answer, latest: Option<Content>)
      requires !pc.Done?
      modifies this
      ensures Fits(pc, old(server), a) && latest == Touched(pc, old(server), a)
      ensures a.ApiOk? ==> latest.Some? || pc.AtRemoveFinalizer?
      ensures old(Rest(pc)) == Rest(Continue(pc, latest, a))
    {
      a := Reply(env, calls, pc, server);
      latest := Touched(pc, server, a);
      server, calls := Kept(latest), calls + 1;
    }

    // ---- Annotations, finalizers and status ----

    method SetAnnBeingCreated(content: Content) returns (updated: Content, ok: bool)
      modifies this
      ensures old(Rest(if BeingCreated in content.annotations then AfterBeingCreated(content, inputs.paramsOk)
                       else AtSetBeingCreated(content, inputs.paramsOk)))
              == Rest(if ok then AfterBeingCreated(updated, inputs.paramsOk) else ToErrorStatus(updated, AnnotateFailed))
    {
      if BeingCreated in content.annotations {
        return content, true;
      }
      var a, latest := Call(AtSetBeingCreated(content, inputs.paramsOk));
      if !a.ApiOk? {
        return content, false;
      }
      return latest.value, true;
    }

    /** `why` says what the annotation is removed for, and so how the pass goes on. */
    method RemoveAnnBeingCreated(content: Content, why: Removal) returns (updated: Content, ok: bool)
      requires BeingCreated in content.annotations
      modifies this
      ensures old(Rest(AtRemoveBeingCreated(content, why)))
              == Rest(match why
                      case AfterCreate => if ok then Done(!IsReady(updated), false) else ToErrorStatus(updated, UnannotateFailed)
                      case AfterFinalError(m) => ToErrorStatus(updated, if ok then m else UnannotateFailed)
                      case AlreadyReady => Done(!ok, !ok))
    {
      var a, latest := Call(AtRemoveBeingCreated(content, why));
      if !a.ApiOk? {
        return content, false;
      }
      return latest.value, true;
    }

    method RemoveContentFinalizer(content: Content) returns (ok: bool)
      modifies this
      ensures old(Rest(ToRemoveFinalizer(content))) == Rest(Done(!ok, !ok))
    {
      if ContentBound !in content.finalizers {
        return true;
      }
      var a, _ := Call(AtRemoveFinalizer(content));
      return a.ApiOk?;
    }

    method UpdateContentErrorStatus(content: Content, message: Message)
      modifies this
      ensures old(Rest(ToErrorStatus(content, message))) == Rest(Done(true, true))
    {
      if content.status.Some? && content.status.value.error.Some? && content.status.value.error.value.message == message {
        return;
      }
      var _, _ := Call(AtErrorStatus(content, message));
    }

    // ---- Creation ----

    method CreateSnapshotWrapper(content: Content) returns (updated: Content, error: Option<Message>)
      modifies this
      ensures old(Rest(ToCreate(content, inputs)))
              == Rest(if error.Some? then ToErrorStatus(updated, error.value) else Done(!IsReady(updated), false))
    {
      if content.className.None? || !inputs.classFound || !inputs.secretsOk {
        return content, Some(NoInput);
      }
      var announced, ok := SetAnnBeingCreated(content);
      if !ok {
        return announced, Some(AnnotateFailed);
      }
      if !inputs.paramsOk {
        return announced, Some(BadParameters);
      }
      var a, _ := Call(AtCreateSnapshot(announced));
      if a.CreateFailed? {
        if IsFinalError(a.error) && BeingCreated in announced.annotations {
          var removed, gone := RemoveAnnBeingCreated(announced, AfterFinalError(a.message));
          return removed, Some(if gone then a.message else UnannotateFailed);
        }
        return announced, Some(a.message);
      }
      var recorded, latest := Call(AtRecord(announced, true, a.handle, a.ready, a.created, a.size, ""));
      if !recorded.ApiOk? {
        return announced, Some(RecordFailed);
      }
      if BeingCreated !in latest.value.annotations {
        return latest.value, None;
      }
      var removed, gone := RemoveAnnBeingCreated(latest.value, AfterCreate);
      return removed, if gone then None else Some(UnannotateFailed);
    }

    method CreateSnapshot(content: Content) returns (requeue: bool, failed: bool)
      modifies this
      ensures old(Rest(ToCreate(content, inputs))) == Rest(Done(requeue, failed))
    {
      var updated, error := CreateSnapshotWrapper(content);
      if error.Some? {
        UpdateContentErrorStatus(updated, error.value);
        return true, true;
      }
      return !IsReady(updated), false;
    }

    // ---- Status of a snapshot that exists ----

    /** Where a pass stands that is neither deleting, nor ready, nor creating for the first time. */
    ghost function Checking(content: Content): Pc {
      if ReadsHandle(content) then
        if content.className.Some? && !(inputs.classFound && inputs.listSecretsOk) then ToErrorStatus(content, NoClassOrSecret)
        else if GroupHandleOf(content).Some? && !inputs.secretsOk then ToErrorStatus(content, NoClassOrSecret)
        else AtGetStatus(content)
      else if !IsGroupMember(content) then ToCreate(content, inputs)
      else Done(!IsReady(content), false)
    }

    predicate ReadsHandle(content: Content) {
      content.snapshotHandle.Some? || (GroupHandleOf(content).Some? && Handle(content).Some?)
    }

    method CheckAndUpdateContentStatusOperation(content: Content) returns (updated: Content, error: Option<Message>)
      modifies this
      ensures old(Rest(Checking(content)))
              == Rest(if error.Some? then ToErrorStatus(updated, error.value) else Done(!IsReady(updated), false))
    {
      if ReadsHandle(content) {
        if content.className.Some? {
          if !inputs.classFound || !inputs.listSecretsOk {
            return content, Some(NoClassOrSecret);
          }
        }
        if GroupHandleOf(content).Some? && !inputs.secretsOk {
          return content, Some(NoClassOrSecret);
        }
        var a, _ := Call(AtGetStatus(content));
        if a.StatusFailed? {
          return content, Some(a.message);
        }
        var id := if content.snapshotHandle.Some? then content.snapshotHandle.value else Handle(content).value;
        var recorded, latest := Call(AtRecord(content, false, id, a.ready, a.created, a.size, a.groupId));
        if !recorded.ApiOk? {
          return content, Some(RecordFailed);
        }
        return latest.value, None;
      }
      if !IsGroupMember(content) {
        updated, error := CreateSnapshotWrapper(content);
        return;
      }
      return content, None;
    }

    method CheckAndUpdateContentStatus(content: Content) returns (requeue: bool, failed: bool)
      modifies this
      ensures old(Rest(Checking(content))) == Rest(Done(requeue, failed))
    {
      var updated, error := CheckAndUpdateContentStatusOperation(content);
      if error.Some? {
        UpdateContentErrorStatus(updated, error.value);
        return true, true;
      }
      return !IsReady(updated), false;
    }

    // ---- Deletion ----

    method DeleteCSISnapshot(content: Content) returns (updated: Content, ok: bool)
      modifies this
      ensures old(Rest(if inputs.secretsOk then AtDeleteSnapshot(content) else Done(true, true)))
              == Rest(if ok then ToRemoveFinalizer(updated) else Done(true, true))
    {
      if !inputs.secretsOk {
        return content, false;
      }
      var a, _ := Call(AtDeleteSnapshot(content));
      if !a.SnapshotDeleted? {
        return content, false;
      }
      var cleared, latest := Call(AtClearStatus(content));
      if !cleared.ApiOk? {
        return content, false;
      }
      return latest.value, true;
    }

    // ---- The pass ----

    /** The pass ends exactly as the pass cut at every call does when nobody interferes. */
    method SyncContent(content: Content) returns (requeue: bool, failed: bool)
      modifies this
      ensures old(Rest(Begin(content, inputs))) == Ended(server, Done(requeue, failed), calls)
    {
      if ShouldDelete(content) {
        var latest := content;
        if content.policy == Delete && Handle(content).Some? && GroupHandleOf(content).None? {
          var ok;
          latest, ok := DeleteCSISnapshot(content);
          if !ok {
            return true, true;
          }
        }
        var ok := RemoveContentFinalizer(latest);
        return !ok, !ok;
      }
      if content.volumeHandle.Some? && content.status.None? && !IsGroupMember(content) {
        requeue, failed := CreateSnapshot(content);
        return;
      }
      if IsReady(content) {
        if BeingCreated in content.annotations {
          var _, ok := RemoveAnnBeingCreated(content, AlreadyReady);
          return !ok, !ok;
        }
        return false, false;
      }
      requeue, failed := CheckAndUpdateContentStatus(content);
    }
  }
}
