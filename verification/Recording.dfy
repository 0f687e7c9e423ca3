/**
 What a sidecar pass without API faults leaves on the content: the driver's answer, field by
 field, or the error, and nothing else changed.
 */
module Recording {
  import opened Objects
  import opened Sidecar
  import opened Driver

  /** The API accepts every write at time `now`; the driver gives `answer` to a creation or a question, and deletes. */
  ghost predicate Answering(env: Env, answer: Answer, now: int) {
    forall k: nat, pc: Pc, stored: Option<Content> :: !pc.Done? ==>
      env(k, pc, stored)
      == if pc.AtCreateSnapshot? || pc.AtGetStatus? then answer
         else if pc.AtDeleteSnapshot? then SnapshotDeleted
         else if Fits(pc, stored, ApiOk(now)) then ApiOk(now) else ApiRejected
  }

  /** Only status and being-created differ. */
  ghost predicate SameSpec(c: Content, d: Content) {
    d.(status := c.status, annotations := c.annotations) == c
    && forall k :: k != BeingCreated ==>
         (k in d.annotations <==> k in c.annotations) && (k in c.annotations ==> d.annotations[k] == c.annotations[k])
  }

  // ---- The first call ----

  /** The sidecar was told to delete: an unbound imported content by its deletion alone, others by the mark, once no creation is announced. */
  predicate ToldToDelete(c: Content) {
    c.deleted
    && if c.snapshotHandle.Some? && c.refUid == "" then true else BeingDeleted in c.annotations && BeingCreated !in c.annotations
  }

  predicate HasSnapshotToDelete(c: Content) {
    c.policy == Delete && c.status.Some? && c.status.value.handle.Some? && c.status.value.groupHandle.None?
  }

  predicate KnownReady(c: Content) {
    c.status.Some? && c.status.value.ready == Some(true)
  }

  /** A snapshot somebody else makes: imported, or taken with its group. */
  predicate TakenElsewhere(c: Content) {
    c.snapshotHandle.Some? || (c.status.Some? && c.status.value.handle.Some? && c.status.value.groupHandle.Some?)
  }

  /** Which CSI call a pass can make, and when it lets the content go. */
  lemma PassBeginsIff(c: Content, inp: Inputs)
    requires HasOneSource(c)
    ensures Begin(c, inp).AtDeleteSnapshot? <==> ToldToDelete(c) && HasSnapshotToDelete(c) && inp.secretsOk
    ensures Begin(c, inp).AtRemoveFinalizer? <==> ToldToDelete(c) && !HasSnapshotToDelete(c) && ContentBound in c.finalizers
    ensures Begin(c, inp).AtGetStatus? <==>
              && !ToldToDelete(c) && !KnownReady(c) && TakenElsewhere(c)
              && (c.className.Some? ==> inp.classFound && inp.listSecretsOk)
              && (c.status.Some? && c.status.value.groupHandle.Some? ==> inp.secretsOk)
    ensures Begin(c, inp).AtSetBeingCreated? || Begin(c, inp).AtCreateSnapshot? <==>
              && !ToldToDelete(c) && !KnownReady(c) && !TakenElsewhere(c) && GroupHandle !in c.annotations
              && c.className.Some? && inp.classFound && inp.secretsOk && (BeingCreated in c.annotations ==> inp.paramsOk)
    ensures Begin(c, inp).AtRemoveBeingCreated? <==> !ToldToDelete(c) && KnownReady(c) && BeingCreated in c.annotations
    ensures Begin(c, inp) == Done(true, false) <==>
              !ToldToDelete(c) && !KnownReady(c) && !TakenElsewhere(c) && GroupHandle in c.annotations
    ensures Begin(c, inp) == Done(false, false) <==>
              || (ToldToDelete(c) && !HasSnapshotToDelete(c) && ContentBound !in c.finalizers)
              || (!ToldToDelete(c) && KnownReady(c) && BeingCreated !in c.annotations)
  {}

  /** A write the API refuses, or does not confirm, ends the pass with an error, which is reported where the content is being made. */
  lemma RefusedWritesAreReported(pc: Pc, stored: Option<Content>, a: Answer)
    requires a.ApiRejected? || a.ApiLost?
    ensures pc.AtSetBeingCreated? ==> Continue(pc, stored, a) == ToErrorStatus(pc.copy, AnnotateFailed)
    ensures pc.AtRecord? ==> Continue(pc, stored, a) == ToErrorStatus(pc.copy, RecordFailed)
    ensures pc.AtRemoveBeingCreated? && !pc.why.AlreadyReady? ==> Continue(pc, stored, a) == ToErrorStatus(pc.copy, UnannotateFailed)
    ensures pc.AtRemoveBeingCreated? && pc.why.AlreadyReady? ==> Continue(pc, stored, a) == Done(true, true)
    ensures pc.AtErrorStatus? || pc.AtClearStatus? || pc.AtRemoveFinalizer? ==> Continue(pc, stored, a) == Done(true, true)
  {}

  /** So does a failed deletion; being-created says yes. */
  lemma FailedDeletionsAreRetried(c: Content, stored: Option<Content>, gone: bool)
    ensures Continue(AtDeleteSnapshot(c), stored, DeleteFailed(gone)) == Done(true, true)
    ensures WithBeingCreated(c) == c.(annotations := c.annotations[BeingCreated := "yes"])
  {}

  // ---- Creation ----

  /** A dynamic content a pass will try to create a snapshot for. */
  predicate Creatable(c: Content) {
    && c.volumeHandle.Some? && c.snapshotHandle.None? && c.refUid != "" && c.className.Some? && GroupHandle !in c.annotations
    && !ToldToDelete(c) && !KnownReady(c) && !TakenElsewhere(c) && (c.deleted ==> c.finalizers != [])
  }

  /** Both with and without the annotation, the pass gets to the creation. */
  lemma {:induction false} PassCreates(c: Content, inp: Inputs, env: Env, answer: Answer, now: int) returns (k: nat, d: Content)
    requires Creatable(c) && Answering(env, answer, now) && inp.classFound && inp.secretsOk && inp.paramsOk
    ensures SameSpec(c, d) && d.status == c.status && BeingCreated in d.annotations && (d.deleted ==> d.finalizers != [])
    ensures Finish(env, 0, Begin(c, inp), Some(c)) == Finish(env, k, AtCreateSnapshot(d), Some(d))
  {
    k, d := 0, c;
    if BeingCreated !in c.annotations {
      FinishAfterCall(env, 0, AtSetBeingCreated(c, true), Some(c));
      k, d := 1, WithBeingCreated(c);
    }
  }

  /** What the driver said is on the status: its handle and times where there were none, its readiness in any case. */
  ghost predicate Holds(prior: Option<ContentStatus>, st: Option<ContentStatus>, handle: string, ready: bool, created: int, size: int, group: string) {
    var p := if prior.Some? then prior.value else EMPTY_CONTENT_STATUS;
    && st.Some? && st.value.ready == Some(ready)
    && st.value.handle == (if p.handle.Some? then p.handle else Some(handle))
    && st.value.created == (if p.created.Some? then p.created else Some(created))
    && st.value.size == (if p.size.Some? then p.size else if size > 0 then Some(size) else None)
    && st.value.groupHandle == (if p.groupHandle.Some? then p.groupHandle else if group != "" then Some(group) else None)
    && st.value.error == (if ready && p.ready != Some(true) then None else p.error)
  }

  lemma {:induction false} CreationIsRecorded(c: Content, inp: Inputs, env: Env, handle: string, ready: bool, created: int, size: int, now: int)
    requires Creatable(c) && inp.classFound && inp.secretsOk && inp.paramsOk
    requires Answering(env, Created(handle, ready, created, size), now)
    ensures var e := Finish(env, 0, Begin(c, inp), Some(c));
            var r := e.stored;
            && e.pc == Done(!ready, false)
            && r.Some? && SameSpec(c, r.value) && BeingCreated !in r.value.annotations
            && Holds(c.status, r.value.status, handle, ready, created, size, "")
  {
    var k, d := PassCreates(c, inp, env, Created(handle, ready, created, size), now);
    AnsweredCreation(d, env, k, Created(handle, ready, created, size), now);
    SpecChain(c, d, Finish(env, k, AtCreateSnapshot(d), Some(d)).stored.value);
  }

  lemma SpecChain(c: Content, d: Content, e: Content)
    requires SameSpec(c, d) && SameSpec(d, e)
    ensures SameSpec(c, e)
  {}

  lemma {:induction false} AnsweredCreation(c: Content, env: Env, k: nat, a: Answer, now: int)
    requires BeingCreated in c.annotations && (c.deleted ==> c.finalizers != []) && a.Created? && Answering(env, a, now)
    requires c.refUid != "" && c.volumeHandle.Some?
    ensures var e := Finish(env, k, AtCreateSnapshot(c), Some(c));
            var r := e.stored;
            && e.pc == Done(!a.ready, false)
            && r.Some? && SameSpec(c, r.value) && BeingCreated !in r.value.annotations
            && Holds(c.status, r.value.status, a.handle, a.ready, a.created, a.size, "")
  {
    FinishAfterCall(env, k, AtCreateSnapshot(c), Some(c));
    AnswerIsRecorded(c, env, k + 1, a, now);
  }

  lemma {:induction false} AnswerIsRecorded(c: Content, env: Env, k: nat, a: Answer, now: int)
    requires BeingCreated in c.annotations && (c.deleted ==> c.finalizers != []) && a.Created? && Answering(env, a, now)
    ensures var e := Finish(env, k, AtRecord(c, true, a.handle, a.ready, a.created, a.size, ""), Some(c));
            var r := e.stored;
            && e.pc == Done(!a.ready, false)
            && r.Some? && SameSpec(c, r.value) && BeingCreated !in r.value.annotations
            && Holds(c.status, r.value.status, a.handle, a.ready, a.created, a.size, "")
  {
    FinishAfterCall(env, k, AtRecord(c, true, a.handle, a.ready, a.created, a.size, ""), Some(c));
    var d := c.(status := Some(MergeStatus(c.status, a.handle, a.ready, a.created, a.size, "")));
    FinishAfterCall(env, k + 1, AtRemoveBeingCreated(d, AfterCreate), Some(d));
  }

  /** The error is on the status with its time, the content is not ready, and what else was known still is. */
  ghost predicate Failed(prior: Option<ContentStatus>, st: Option<ContentStatus>, now: int, m: Message) {
    var p := if prior.Some? then prior.value else EMPTY_CONTENT_STATUS;
    && st.Some? && st.value.error == Some(StatusError(Some(now), m)) && st.value.ready == Some(false)
    && st.value.handle == p.handle && st.value.created == p.created && st.value.size == p.size && st.value.groupHandle == p.groupHandle
  }

  predicate Says(st: Option<ContentStatus>, m: Message) {
    st.Some? && st.value.error.Some? && st.value.error.value.message == m
  }

  /** A message already there is not written again. */
  lemma {:induction false} ErrorIsWritten(c: Content, m: Message, env: Env, answer: Answer, k: nat, now: int)
    requires Answering(env, answer, now) && (c.deleted ==> c.finalizers != [])
    ensures var e := Finish(env, k, ToErrorStatus(c, m), Some(c));
            var r := e.stored;
            && e.pc == Done(true, true)
            && r.Some? && r.value.(status := c.status) == c
            && (if Says(c.status, m) then r.value == c else Failed(c.status, r.value.status, now, m))
  {
    if !Says(c.status, m) {
      FinishAfterCall(env, k, AtErrorStatus(c, m), Some(c));
    }
  }

  lemma {:induction false} RefusalIsRecorded(c: Content, env: Env, k: nat, a: Answer, m: Message, now: int)
    requires BeingCreated in c.annotations && (c.deleted ==> c.finalizers != []) && Answering(env, a, now)
    ensures var e := Finish(env, k, AtRemoveBeingCreated(c, AfterFinalError(m)), Some(c));
            var r := e.stored;
            && e.pc == Done(true, true)
            && r.Some? && SameSpec(c, r.value) && BeingCreated !in r.value.annotations
            && (if Says(c.status, m) then r.value.status == c.status else Failed(c.status, r.value.status, now, m))
  {
    FinishAfterCall(env, k, AtRemoveBeingCreated(c, AfterFinalError(m)), Some(c));
    ErrorIsWritten(WithoutBeingCreated(c), m, env, a, k + 1, now);
  }

  /** A failed creation is reported; its announcement is taken back exactly if the driver has given up. */
  lemma {:induction false} FailureIsRecorded(c: Content, inp: Inputs, env: Env, error: RpcError, m: Message, now: int)
    requires Creatable(c) && inp.classFound && inp.secretsOk && inp.paramsOk && Answering(env, CreateFailed(error, m), now)
    ensures var e := Finish(env, 0, Begin(c, inp), Some(c));
            var r := e.stored;
            && e.pc == Done(true, true)
            && r.Some? && SameSpec(c, r.value) && (BeingCreated in r.value.annotations <==> !HasFailed(error))
            && (if Says(c.status, m) then r.value.status == c.status else Failed(c.status, r.value.status, now, m))
  {
    var k, d := PassCreates(c, inp, env, CreateFailed(error, m), now);
    FailedCreation(d, env, k, error, m, now);
    SpecChain(c, d, Finish(env, k, AtCreateSnapshot(d), Some(d)).stored.value);
  }

  lemma {:induction false} FailedCreation(c: Content, env: Env, k: nat, error: RpcError, m: Message, now: int)
    requires BeingCreated in c.annotations && (c.deleted ==> c.finalizers != []) && Answering(env, CreateFailed(error, m), now)
    requires c.refUid != "" && c.volumeHandle.Some?
    ensures var e := Finish(env, k, AtCreateSnapshot(c), Some(c));
            var r := e.stored;
            && e.pc == Done(true, true)
            && r.Some? && SameSpec(c, r.value) && (BeingCreated in r.value.annotations <==> !HasFailed(error))
            && (if Says(c.status, m) then r.value.status == c.status else Failed(c.status, r.value.status, now, m))
  {
    FinishAfterCall(env, k, AtCreateSnapshot(c), Some(c));
    if IsFinalError(error) {
      RefusalIsRecorded(c, env, k + 1, CreateFailed(error, m), m, now);
    } else {
      ErrorIsWritten(c, m, env, CreateFailed(error, m), k + 1, now);
    }
  }

  /** Without class or secrets nothing is announced; bad parameters are found after the announcement. */
  lemma {:induction false} UnusableInputIsRecorded(c: Content, inp: Inputs, env: Env, answer: Answer, now: int)
    requires Creatable(c) && !(inp.classFound && inp.secretsOk && inp.paramsOk) && Answering(env, answer, now)
    ensures var e := Finish(env, 0, Begin(c, inp), Some(c));
            var r := e.stored;
            var m := if inp.classFound && inp.secretsOk then BadParameters else NoInput;
            && e.pc == Done(true, true)
            && r.Some? && SameSpec(c, r.value)
            && (BeingCreated in r.value.annotations <==> BeingCreated in c.annotations || (inp.classFound && inp.secretsOk))
            && (if Says(c.status, m) then r.value.status == c.status else Failed(c.status, r.value.status, now, m))
  {
    if !inp.classFound || !inp.secretsOk {
      ErrorIsWritten(c, NoInput, env, answer, 0, now);
    } else if BeingCreated in c.annotations {
      ErrorIsWritten(c, BadParameters, env, answer, 0, now);
    } else {
      assert Begin(c, inp) == AtSetBeingCreated(c, false);
      RejectionIsRecorded(c, env, answer, now);
    }
  }

  lemma {:induction false} RejectionIsRecorded(c: Content, env: Env, answer: Answer, now: int)
    requires Answering(env, answer, now) && (c.deleted ==> c.finalizers != [])
    ensures var e := Finish(env, 0, AtSetBeingCreated(c, false), Some(c));
            var r := e.stored;
            && e.pc == Done(true, true)
            && r.Some? && SameSpec(c, r.value) && BeingCreated in r.value.annotations
            && (if Says(c.status, BadParameters) then r.value.status == c.status else Failed(c.status, r.value.status, now, BadParameters))
  {
    FinishAfterCall(env, 0, AtSetBeingCreated(c, false), Some(c));
    ErrorIsWritten(WithBeingCreated(c), BadParameters, env, answer, 1, now);
  }

  // ---- Snapshots taken elsewhere ----

  /** A content a pass asks the driver about. */
  predicate Asked(c: Content) {
    !ToldToDelete(c) && !KnownReady(c) && TakenElsewhere(c) && HasOneSource(c) && (c.deleted ==> c.finalizers != [])
  }

  /** The handle given by the administrator comes before the one on the status. */
  function GivenHandle(c: Content): string
    requires TakenElsewhere(c)
  {
    if c.snapshotHandle.Some? then c.snapshotHandle.value else c.status.value.handle.value
  }

  lemma {:induction false} StatusIsRecorded(c: Content, inp: Inputs, env: Env, ready: bool, created: int, size: int, group: string, now: int)
    requires Asked(c) && inp.classFound && inp.listSecretsOk && inp.secretsOk
    requires Answering(env, StatusRead(ready, created, size, group), now)
    ensures var e := Finish(env, 0, Begin(c, inp), Some(c));
            var r := e.stored;
            && e.pc == Done(!ready, false)
            && r.Some? && r.value.(status := c.status) == c
            && Holds(c.status, r.value.status, GivenHandle(c), ready, created, size, group)
  {
    FinishAfterCall(env, 0, AtGetStatus(c), Some(c));
    ReadIsRecorded(c, env, StatusRead(ready, created, size, group), GivenHandle(c), now);
  }

  lemma {:induction false} ReadIsRecorded(c: Content, env: Env, a: Answer, handle: string, now: int)
    requires a.StatusRead? && Answering(env, a, now) && (c.deleted ==> c.finalizers != [])
    ensures var e := Finish(env, 1, AtRecord(c, false, handle, a.ready, a.created, a.size, a.groupId), Some(c));
            var r := e.stored;
            && e.pc == Done(!a.ready, false)
            && r.Some? && r.value.(status := c.status) == c
            && Holds(c.status, r.value.status, handle, a.ready, a.created, a.size, a.groupId)
  {
    FinishAfterCall(env, 1, AtRecord(c, false, handle, a.ready, a.created, a.size, a.groupId), Some(c));
  }

  lemma {:induction false} StatusErrorIsRecorded(c: Content, inp: Inputs, env: Env, m: Message, now: int)
    requires Asked(c) && inp.classFound && inp.listSecretsOk && inp.secretsOk && Answering(env, StatusFailed(m), now)
    ensures var e := Finish(env, 0, Begin(c, inp), Some(c));
            var r := e.stored;
            && e.pc == Done(true, true)
            && r.Some? && r.value.(status := c.status) == c
            && (if Says(c.status, m) then r.value.status == c.status else Failed(c.status, r.value.status, now, m))
  {
    FinishAfterCall(env, 0, AtGetStatus(c), Some(c));
    ErrorIsWritten(c, m, env, StatusFailed(m), 1, now);
  }

  lemma {:induction false} NoInputIsRecorded(c: Content, inp: Inputs, env: Env, answer: Answer, now: int)
    requires Asked(c) && Answering(env, answer, now)
    requires (c.className.Some? && !(inp.classFound && inp.listSecretsOk))
             || (c.status.Some? && c.status.value.groupHandle.Some? && !inp.secretsOk)
    ensures var e := Finish(env, 0, Begin(c, inp), Some(c));
            var r := e.stored;
            && e.pc == Done(true, true)
            && r.Some? && r.value.(status := c.status) == c
            && (if Says(c.status, NoClassOrSecret) then r.value.status == c.status else Failed(c.status, r.value.status, now, NoClassOrSecret))
  {
    ErrorIsWritten(c, NoClassOrSecret, env, answer, 0, now);
  }

  // ---- Deletion ----

  /** What is known of a deleted snapshot is cleared, error and group stay, and only the sidecar's finalizer goes. */
  lemma {:induction false} DeletionIsRecorded(c: Content, inp: Inputs, env: Env, answer: Answer, now: int)
    requires ToldToDelete(c) && HasSnapshotToDelete(c) && inp.secretsOk && Answering(env, answer, now) && c.finalizers != []
    ensures var e := Finish(env, 0, Begin(c, inp), Some(c));
            var r := e.stored;
            && e.pc == Done(false, false)
            && (r.None? <==> forall f <- c.finalizers :: f == ContentBound)
            && (r.Some? ==>
                  && r.value.(status := c.status, finalizers := c.finalizers) == c
                  && r.value.finalizers == Without(c.finalizers, ContentBound)
                  && r.value.status == Some(EMPTY_CONTENT_STATUS.(error := c.status.value.error)))
  {
    var d := c.(status := Some(EMPTY_CONTENT_STATUS.(error := c.status.value.error)));
    FinishAfterCall(env, 0, AtDeleteSnapshot(c), Some(c));
    FinishAfterCall(env, 1, AtClearStatus(c), Some(c));
    assert WithClearedStatus(c) == d;
    var fs := Without(c.finalizers, ContentBound);
    assert fs == [] <==> forall f <- c.finalizers :: f == ContentBound by {
      assert fs != [] ==> fs[0] in fs;
    }
    if ContentBound in c.finalizers {
      FinishAfterCall(env, 2, AtRemoveFinalizer(d), Some(d));
    } else {
      assert c.finalizers[0] in c.finalizers;
    }
  }
}
