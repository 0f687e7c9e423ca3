# The CSI snapshot controllers, modelled and proved in Dafny

Two controllers take volume snapshots: the common snapshot-controller and the CSI sidecar. They
never talk to each other. They coordinate through API objects (VolumeSnapshot,
VolumeSnapshotContent, PersistentVolumeClaim and the group versions of the first two) by binding
them in both directions, by finalizers, by deletion timestamps and by two annotations,
being-created and being-deleted. A storage driver may answer late, fail for good, or succeed.
This project models that protocol and the smaller machinery around it, and proves what the design
comments of the controllers ask of every run.

## How the model is built

* `Objects` holds the API objects and the predicates both controllers read them with.
* `Sidecar` is the sidecar's pass over one content, cut at every API and CSI call (`Begin`,
  `Continue`, `Written`). `SidecarController` is the same pass as straight-line code on a mutable
  object, proved to end exactly as the cut pass does when nobody interferes.
* `Recording` says what a whole pass of the sidecar leaves on its content, `Driver` which errors of the
  driver leave a creation open, and `Reporting` what a pass of the common controller leaves when no call fails.
* `Cluster` puts everything in one world (objects, the driver's snapshots, unanswered creations,
  passes under way, a history) and says which single steps move it: one API write of the common
  controller or of the group fan-out, one call of a sidecar pass, an act of a user, a crash, a late
  success of the driver. An API call is applied, refused, or applied with its answer lost.
* `Common` is the common controller's passes as functions of the world and of the fate of each call;
  `Controller` is the same code as a class over mutable state, with the source's loops, each method
  proved equal to its function. Every write of a pass is a step of `Cluster` where that step is
  enabled, so a pass extends a run and everything proved of runs holds of the code.
* `Invariants`, `Tracking`, `Leaks`, `Consent`, `Provisioning` and `Teardown` prove safety over whole runs; `Rounds`,
  `Draining` and `Converging` prove that things get done, and `Stalling` gives the runs in which they do
  not; `Binding` and `Mirror` cover binding and status, `Members` and `Departing` who keeps which
  finalizer until when.
* `GroupFanOut`, `GroupTeardown`, `GroupSidecar`, `GroupRecording` and `GroupDraining` cover group snapshots; `Conversion` the CRD
  conversion webhook; `ObjectStore` and `EventFilter` what reaches the workers; `Metrics` the
  operation metrics.

## What turned out false, and exactly when

* No snapshot is leaked, except when a content is deleted that carries no finalizer yet while its
  snapshot exists or CreateSnapshot is about to be sent. `RunThatLeaks` gives the run for any names:
  the sidecar does not wait for the common controller to put the finalizer on.
  `TrackingSurvivesIff` shows the exception is exact. The group sidecar has the same exception
  (`UnsafeGroupDeleteLeaks`, `GroupRunThatLeaks`).
* The deletion of a snapshot outside groups drains, except in two cases (`DrainsInThreeRoundsIff`):
  being-created is set, the content is not ready, and the class, its parameters or its secrets no longer
  allow CreateSnapshot to be sent, so that nothing ever takes the annotation off; or a handle is recorded
  and the secrets cannot be read. `RunIntoVainWait` reaches the first by a class whose parameters are
  rejected, since the annotation is set before they are looked at; `RunIntoLostSecrets` reaches the second.
  A comment at pkg/sidecar-controller/snapshot_controller.go:585 says that deletion continues without the
  secrets; the code returns an error, and the model follows the code.
* DeleteSnapshot asks for the consent of the VolumeSnapshot the pass saw the content bound to. The only
  exception is a content the pass saw unbound (`DeletionNeedsConsent`): it asks nobody, and it can be bound
  between the decision and the call (`UnboundDeletionCanOvertakeBinding`).
* A snapshot outlives its Delete-policy content once it has the bound finalizer (`SnapshotOutlivesContent`).
  Without it the pass that deletes the content lets the snapshot go at once, unless the in-group finalizer
  keeps it (`SnapshotStaysIff`). Two kinds of snapshots have none: one deleted between the pass that makes its
  content and the pass that adds the finalizer (`RunIntoEarlyDeparture`), and every member of a group, whose
  content is looked up under the name for dynamic snapshots, which it does not have
  (`MembersNeverGetBoundFinalizer`).
* A deleted member of a group that is gone drains like any other snapshot, except when its status does not
  name the group, or when the in-group finalizer is its only one of the controllers'
  (`DrainsInThreeRoundsIff`): then no pass takes that finalizer off (`PassKeepsForgotten`,
  `ForgottenForever`). A member deleted with its group before its own first sync gets there
  (`RunIntoForgottenMember`).
* The snapshot's error equals the content's, except when both hold different errors, one of them
  without a time, and readiness does not just become true (`ErrorIsMirroredIff`, `UntimedErrorSticks`).
  Both controllers write a time with every error, so an error without one can only come from another client
  that may write the status, where the field is optional
  (client/apis/volumesnapshot/v1/types.go:460-471).
* A pass over a content notices every lag of its snapshot's status exactly if the content has a status with
  recorded readiness (`EveryLagIsNoticedIff`); then it always finds one, since two addresses are compared.
  Overlooked are the name of a content just made (`NewContentIsOverlooked`) and the readiness withdrawn by
  clearing a status (`ClearedContentIsOverlooked`).
* Upgrading a group snapshot content whose tracking annotation is JSON but not a list aborts the
  conversion (`UpgradePanicsIff`, `NonListsPanic`).
* A deleted group content drains in the sidecar, except in three cases (`GroupDrainsInThreePassesIff`): an
  announced creation that can no longer be sent, secrets that cannot be read, and a group snapshot recorded
  without members, for which the call is refused before it is sent (`MemberlessGroupsStay`). Nothing keeps
  an answer without members from being recorded (`RunIntoMemberlessGroup`).
* The content of a deleted group snapshot is looked up under its bound name only. The fallback to the
  fixed dynamic name is guarded by the comparison of a field's address with nil
  (pkg/common-controller/groupsnapshot_controller_helper.go:1552), which never holds; the comment above
  it says otherwise, and the model follows the code. A content that points back is let go exactly when the
  group has the bound finalizer and is bound to that name (`ContentLetGoIff`), and the finalizer is put on
  bound groups only. So a group deleted after its content was created and before its status was written
  leaves the content behind, neither marked nor deleted, for good (`UnboundDeletionStrands`,
  `HistoryThatStrands`).

## Model

| member | source | states |
|---|---|---|
| Leaks.NoLeakInEveryRun | pkg/sidecar-controller/snapshot_controller.go:338-406 | in every run with crashes, lost answers, timeouts and errors of any code, after some of which the driver goes on (`Driver.MayGoOn`) and after the others not, whatever the driver holds or may still produce for a dynamic content is announced on it by being-created or a recorded handle (or was let go with a Retain content), provided no needed content without finalizers was deleted |
| Leaks.FinalizerLeavesNothingBehind | pkg/sidecar-controller/snapshot_controller.go:61-86 | when a pass is about to take the content finalizer off a Delete-policy dynamic content, the driver neither holds a snapshot for it nor can still produce one |
| Leaks.UnsafeDeleteLeaks | pkg/sidecar-controller/snapshot_controller.go:338-406 | deleting an unprotected content whose snapshot exists leaks at once; deleting it while CreateSnapshot is about to be sent leaks when that call times out |
| Leaks.TrackingSurvivesIff | pkg/sidecar-controller/snapshot_controller.go:596-651 | the tracking invariant survives a step if and only if the step is no such deletion |
| Leaks.RunThatLeaks | pkg/common-controller/snapshot_controller.go:722-822 | from any initial world and for any names there is an eight-step run ending in a leak: the content is created without finalizers and deleted by a user before it gets one |
| Driver.FinalIffFailed | pkg/sidecar-controller/snapshot_controller.go:725-748 | the sidecar takes an error for final exactly if the call reached the driver and the driver does not go on |
| Tracking.StepKeepsTracking | pkg/sidecar-controller/snapshot_controller.go:353-405 | every step of either controller, of users and of the driver keeps every physical snapshot tracked by its content or by the pass under way |
| Invariants.StepKeepsBase | pkg/common-controller/snapshot_controller.go:89-169 | every step keeps UIDs unique, deletion timestamps recorded, dynamic contents named after their snapshot, being-deleted only on contents of deleted snapshots, and the copies of passes in line with the stored objects |
| Consent.DeletionNeedsConsent | pkg/sidecar-controller/snapshot_controller.go:625-651 | DeleteSnapshot is sent only for a deleted Delete-policy content outside any group, and, if the pass saw it bound, the stored content is bound to the same UID and an earlier step deleted the VolumeSnapshot with exactly that UID; a content bound to a snapshot nobody deleted can be hit only if the pass read it unbound |
| Consent.NoDataLoss | pkg/sidecar-controller/csi_handler.go:94-114 | a physical snapshot disappears from the driver only by such a call, with the handle chosen from the content |
| Consent.MembersAreIsolated | pkg/sidecar-controller/snapshot_controller.go:258-335 | in every run neither CreateSnapshot nor DeleteSnapshot is sent for a content carrying the group annotation |
| Consent.OnePhysicalSnapshotPerUid | pkg/sidecar-controller/csi_handler.go:75-92 | in every run the driver holds at most one snapshot under the name made from a UID |
| Consent.RetriesRepeatTheCall | pkg/sidecar-controller/csi_handler.go:75-92 | as long as a content object exists, all CreateSnapshot calls for it carry the same name and volume handle |
| Consent.NoCreationAfterDeletion | pkg/sidecar-controller/snapshot_controller.go:409-456 | no CreateSnapshot follows a DeleteSnapshot for the same dynamic content, whatever crashes or fails in between |
| Provisioning.PassesCreateByClass | pkg/common-controller/snapshot_controller.go:722-822 | whatever becomes of its calls, a pass makes contents with policy, driver and secrets of an existing class only |
| Provisioning.RetainClassesCreateRetained | pkg/common-controller/snapshot_controller.go:757 | so passes make no Delete-policy content while all classes say Retain |
| Provisioning.RetainedSnapshotsSurvive | pkg/sidecar-controller/snapshot_controller.go:409-432 | in every run in which no Delete-policy content was made no DeleteSnapshot is sent for a dynamic content |
| Teardown.SnapshotOutlivesContent | pkg/common-controller/snapshot_controller.go:278-354 | once a snapshot had the bound finalizer, the finalizer or the object is gone only when no Delete-policy content under its bound name points back at it |
| Members.MembersNeverGetBoundFinalizer | pkg/common-controller/snapshot_controller.go:357-394 | in no run does a snapshot made by a group fan-out get the bound finalizer |
| Departing.SnapshotStaysIff | pkg/common-controller/snapshot_controller.go:278-354 | a deletion candidate with the controllers' finalizers only, whose named group is gone and which nothing restores from, outlasts a pass without faults exactly if it has the bound finalizer and a Delete-policy content points back, or the in-group finalizer and no group in its status; a content that points back is marked, and deleted as its policy says; the source claim is released as if the snapshot were gone |
| Departing.TeardownIsOrdered | pkg/common-controller/snapshot_controller.go:314-354 | wherever a deletion pass stops, the content is deleted only once marked, and the snapshot touched only once a content that points back is marked and, if its policy says so, deleted; a Retain content is never deleted |
| Stalling.RunIntoEarlyDeparture | pkg/common-controller/snapshot_controller.go:357-394 | a run in which an ordinary snapshot, deleted before it got the bound finalizer, goes before its Delete-policy content |
| Teardown.MembersStayWithTheirGroup | pkg/common-controller/snapshot_controller.go:294-312 | a snapshot with the in-group finalizer loses it, or disappears, only in a step at which the group its status names does not exist |
| Departing.GroupedMembersStay | pkg/common-controller/snapshot_controller.go:294-312 | in every run the in-group finalizer stays as long as the status names no group or the group it names exists |
| Departing.NamedMemberStays | pkg/common-controller/snapshot_controller.go:294-312 | every deletion pass over a member whose named group exists leaves finalizers, name and contents as they are |
| Departing.PassKeepsForgotten | pkg/common-controller/snapshot_controller.go:223-354 | a deleted member whose status names no group, or that has no other finalizer of the controllers, keeps the in-group finalizer in every pass, whatever becomes of the calls |
| Teardown.SourceIsProtected | pkg/common-controller/snapshot_controller.go:974-1100 | from the creation of its content until the snapshot was first ready or is deleted, the source claim carries the as-source finalizer, whatever other snapshots of the claim do |
| Common.SnapshotPassIsRun | pkg/common-controller/snapshot_controller.go:176-217 | a pass over a snapshot begun in a reachable world goes through reachable worlds only, whatever becomes of its calls |
| Common.ContentPassIsRun | pkg/common-controller/snapshot_controller.go:89-169 | the same for a pass over a content |
| Common.PassExtendsRun | pkg/common-controller/snapshot_controller.go:278-354 | steps made one after the other by a pass continue the run it began in |
| Common.FindPreprovisioned | pkg/common-controller/snapshot_controller.go:621-651 | a content is found only if it exists, names an existing snapshot, points at this snapshot by name and namespace, and is unbound or bound to its UID |
| Common.FindDynamic | pkg/common-controller/snapshot_controller.go:668-697 | a content is found only under the fixed name, taken from a volume, and pointing back with the UID |
| Common.CreateSnapshotContent | pkg/common-controller/snapshot_controller.go:722-822 | success means the content exists under the fixed name without a status, with policy, driver and secrets of the class and the handle of the volume the bound claim names; the snapshot stays as it was read |
| Common.ProtectClaim | pkg/common-controller/snapshot_controller.go:974-1008 | success means the source claim exists and carries the as-source finalizer |
| Controller.CommonController.Write | pkg/common-controller/snapshot_controller.go:919-948 | an API write is applied, refused, or applied without acknowledgement, as its fate says |
| Reporting.FateDecides | pkg/common-controller/snapshot_controller.go:919-948 | a call is applied unless it is rejected, and taken for a success only if its answer arrives |
| Controller.CommonController.IsPVCBeingUsed | pkg/common-controller/snapshot_controller.go:1036-1064 | the loop over listed snapshots answers whether some unready snapshot of the namespace, other than the skipped deleted one, is taken from the claim |
| Controller.CommonController.IsVolumeBeingCreatedFromSnapshot | pkg/common-controller/snapshot_controller.go:951-970 | the loop over claims answers whether a pending claim of the namespace restores from the snapshot |
| Controller.CommonController.UpdateErrorStatus | pkg/common-controller/snapshot_controller.go:876-916 | an error is written once per message, and refused when the copy in hand is out of date |
| Controller.CommonController.UpdateStatus | pkg/common-controller/snapshot_controller.go:1212-1348 | the status written is the mirrored one, whose fields `Mirror.MirrorFillsIn` and `Mirror.MirrorFollowsAndKeeps` give, or nothing is written; a content of an unknown group is an error |
| Controller.CommonController.CheckAndRemovePVCFinalizer | pkg/common-controller/snapshot_controller.go:1069-1100 | the claim finalizer is removed exactly when it is there and the claim is not in use |
| Controller.CommonController.EnsurePVCFinalizer | pkg/common-controller/snapshot_controller.go:974-1008 | the claim gets the finalizer unless it is missing or being deleted |
| Controller.CommonController.CreateSnapshotContent | pkg/common-controller/snapshot_controller.go:722-822 | the claim is protected first, then the content is created from class, claim and volume, field by field as `Common.CreateSnapshotContent` says |
| Controller.CommonController.SyncPreprovisioned | pkg/common-controller/snapshot_controller.go:495-529 | missing and unfit contents are reported; a fit one is bound if needed and mirrored |
| Controller.CommonController.SyncMember | pkg/common-controller/snapshot_controller.go:531-563 | success means that the status is the one mirrored from the content the member is bound to; all outcomes are in `Binding.MembersAreMirrored` |
| Binding.MembersAreMirrored | pkg/common-controller/snapshot_controller.go:531-563 | success makes a member ready exactly if its bound content is; unbound or without its content it waits and nothing is written; without faults only an unknown group content stands in the way |
| Binding.MirroredMembersAreNamed | pkg/common-controller/snapshot_controller.go:1236-1260 | a member mirrored without a group name takes that of the group content with the handle its content carries |
| Binding.MirroredMembersStay | pkg/common-controller/snapshot_controller.go:294-312 | and no deletion pass lets it go while that group exists, whatever becomes of the calls |
| Controller.CommonController.SyncDynamic | pkg/common-controller/snapshot_controller.go:565-607 | an existing content is mirrored, a missing one created, anything else reported |
| Controller.CommonController.SyncUnready | pkg/common-controller/snapshot_controller.go:469-607 | the three kinds of snapshot are told apart by content name, then by group owner |
| Controller.CommonController.SyncReady | pkg/common-controller/snapshot_controller.go:398-466 | a broken binding is reported; a member without owner is adopted by its group |
| Controller.CommonController.CheckAndAddSnapshotFinalizers | pkg/common-controller/snapshot_controller.go:357-394 | the bound finalizer is added only to a snapshot bound to a Delete-policy content that was found |
| Controller.CommonController.SetAnnBeingDeleted | pkg/common-controller/snapshot_controller.go:1690-1721 | being-deleted is set unless it is set already |
| Controller.CommonController.RemoveSnapshotFinalizer | pkg/common-controller/snapshot_controller.go:1619-1663 | the claim is released before the snapshot's finalizers go |
| Controller.CommonController.ReleaseContent | pkg/common-controller/snapshot_controller.go:314-353 | the content is marked, deleted if its policy is Delete, and only a snapshot without such a content loses the bound finalizer |
| Controller.CommonController.ProcessSnapshotWithDeletionTimestamp | pkg/common-controller/snapshot_controller.go:223-354 | nothing is done while a claim is being restored or the named group exists; otherwise content and finalizers are let go in order |
| Controller.CommonController.SyncSnapshot | pkg/common-controller/snapshot_controller.go:176-217 | one pass over a snapshot, call by call, is the function whose passes are runs |
| Controller.CommonController.SyncSnapshotByKey | pkg/common-controller/snapshot_controller_base.go:377-404 | without its class a live snapshot is not synced, and a deleted one is synced only when its error is recorded already |
| Reporting.MissingClassIsReported | pkg/common-controller/snapshot_controller_base.go:386-400 | a live snapshot without its class gets the error, stays as ready as it was, and nothing else happens |
| Reporting.InvalidSourceIsReported | pkg/common-controller/snapshot_controller.go:196-203 | so does one with both sources or none, which is called not ready |
| Reporting.UnfitContentIsReported | pkg/common-controller/snapshot_controller.go:621-651 | a named content that is missing, made from a volume, or for another snapshot is reported as such, and nothing else happens |
| Reporting.ForeignContentIsReported | pkg/common-controller/snapshot_controller.go:668-697 | the same for a content under the name of a dynamic snapshot |
| Reporting.MissingClaimIsReported | pkg/common-controller/snapshot_controller.go:722-735 | a claim that cannot be protected is reported as a failed creation, and no content is made |
| Reporting.UnknownGroupIsReported | pkg/common-controller/snapshot_controller.go:531-563 | a member whose group content is unknown is told so and stays as ready as it was |
| Reporting.UnknownGroupOfImportedIsReported | pkg/common-controller/snapshot_controller.go:495-529 | the same for a pre-provisioned snapshot |
| Reporting.UnknownGroupOfDynamicIsReported | pkg/common-controller/snapshot_controller.go:565-607 | and for a dynamic one, which is called not ready |
| Reporting.FailedBindingIsReported | pkg/common-controller/snapshot_controller.go:495-529 | a binding the API refuses is reported and leaves the content unbound |
| Reporting.ReadySnapshotIff | pkg/common-controller/snapshot_controller.go:398-466 | a ready snapshot with a broken binding is reported, one without owner is adopted exactly if the group it names exists, and nothing else happens to either |
| Reporting.FinalizersAddedIff | pkg/common-controller/snapshot_controller.go:357-394 | every live snapshot gets the as-source finalizer; the bound finalizer exactly one that is bound by name and has a Delete-policy content |
| Reporting.ClaimReleasedIff | pkg/common-controller/snapshot_controller.go:1036-1100 | the claim loses its finalizer, and only that, exactly if no other unready snapshot of the namespace is taken from it |
| Reporting.ClaimProtectedIff | pkg/common-controller/snapshot_controller.go:974-1008 | the claim gets the finalizer, and only that, exactly if it exists and has it already or is not deleted |
| Reporting.RestoringBlocksDeletion | pkg/common-controller/snapshot_controller.go:278-292 | while a pending claim restores from the snapshot, a deletion pass over one whose content points back does nothing |
| Reporting.DeletedUnderIff | pkg/common-controller/snapshot_controller.go:223-250 | the content is looked up under the bound name, or else under the name made from the UID |
| Controller.CommonController.SyncContent | pkg/common-controller/snapshot_controller.go:89-169 | one pass over a content is the function whose passes are runs, and says whether the snapshot is to be synced because its status lags |
| Reporting.ContentPassProtectsIff | pkg/common-controller/snapshot_controller.go:89-121 | a pass adds the finalizer exactly to a live bound content that lacks it |
| Reporting.ContentPassMarksIff | pkg/common-controller/snapshot_controller.go:161-166 | another content is marked exactly if its snapshot is a deletion candidate, and nothing else happens |
| Reporting.EnqueuedIff | pkg/common-controller/snapshot_controller.go:136-141 | exactly then a pass over the snapshot is asked for |
| Binding.EveryLagIsNoticedIff | pkg/common-controller/snapshot_controller.go:1180-1209 | whatever the snapshot's status, a lag makes the pass over the content ask for a pass over the snapshot, if and only if the content has a status with recorded readiness |
| Binding.NoUpdateAskedIff | pkg/common-controller/snapshot_controller.go:1180-1209 | no pass is asked for exactly if the content has no status, or no recorded readiness and mirroring would change at most readiness, error and group name |
| Binding.NewContentIsOverlooked | pkg/common-controller/snapshot_controller.go:1183-1188 | a content just made lags by the name it is to be bound under, and no pass is asked for |
| Binding.ClearedContentIsOverlooked | pkg/common-controller/snapshot_controller.go:1195-1200 | nor is one when the sidecar cleared the status and the snapshot still says ready |
| SidecarControllers.SidecarController.Call | pkg/sidecar-controller/snapshot_controller.go:656-693 | a call made by the straight-line code moves the rest of the pass exactly as the cut pass is moved |
| SidecarControllers.SidecarController.CreateSnapshotWrapper | pkg/sidecar-controller/snapshot_controller.go:338-406 | announcing, creating, recording and unannouncing, with every failure, is the creating part of the cut pass; what that leaves on the content is in `Recording` |
| SidecarControllers.SidecarController.CheckAndUpdateContentStatusOperation | pkg/sidecar-controller/snapshot_controller.go:258-335 | reading a status or falling back to creation is the checking part of the cut pass |
| SidecarControllers.SidecarController.DeleteCSISnapshot | pkg/sidecar-controller/snapshot_controller.go:409-456 | deleting and clearing the status is the deleting part of the cut pass |
| SidecarControllers.SidecarController.UpdateContentErrorStatus | pkg/sidecar-controller/snapshot_controller.go:166-224 | the same error is not written twice |
| SidecarControllers.SidecarController.RemoveContentFinalizer | pkg/sidecar-controller/snapshot_controller.go:596-621 | the finalizer is removed if present, with the outcome the cut pass has |
| SidecarControllers.SidecarController.SyncContent | pkg/sidecar-controller/snapshot_controller.go:58-109 | the straight-line pass ends with the same stored content, requeue decision and number of calls as the pass cut at every call |
| Recording.PassBeginsIff | pkg/sidecar-controller/snapshot_controller.go:58-109 | when a pass deletes, asks for a status, creates, unannounces, lets go or does nothing, exactly |
| Recording.CreationIsRecorded | pkg/sidecar-controller/snapshot_controller.go:338-406 | a pass in which the driver creates leaves its handle, times and readiness on the content, unannounced, asks to come back exactly if it is not ready, and changes nothing else |
| Recording.FailureIsRecorded | pkg/sidecar-controller/snapshot_controller.go:368-382 | one in which the driver fails leaves the error with its time and not ready; the announcement goes exactly if the driver has given up |
| Recording.UnusableInputIsRecorded | pkg/sidecar-controller/snapshot_controller.go:338-361 | without class or secrets nothing is announced; bad parameters are found after the announcement; both are reported |
| Recording.StatusIsRecorded | pkg/sidecar-controller/snapshot_controller.go:258-335 | a status read from the driver is recorded field by field |
| Recording.StatusErrorIsRecorded | pkg/sidecar-controller/snapshot_controller.go:295-305 | and a failure to read it with its time |
| Recording.NoInputIsRecorded | pkg/sidecar-controller/snapshot_controller.go:265-290 | as is the lack of a class or of secrets for reading it |
| Recording.DeletionIsRecorded | pkg/sidecar-controller/snapshot_controller.go:409-456 | after a deletion handle, readiness, time and size are cleared, the error stays, and only the sidecar's finalizer goes |
| Recording.RefusedWritesAreReported | pkg/sidecar-controller/snapshot_controller.go:656-693 | a write that is refused or not confirmed ends the pass with its own error |
| Sidecar.PassesEnd | pkg/sidecar-controller/snapshot_controller.go:58-109 | a pass ends after at most six calls whatever the answers are |
| Sidecar.SnapshotNameInjective | pkg/sidecar-controller/csi_handler.go:138-149 | untruncated names are one to one with UIDs |
| Sidecar.NamesCarryThePrefix | pkg/sidecar-controller/csi_handler.go:138-149 | every name begins with the prefix; a truncated one has as many characters as asked for, of the UID without its dashes |
| Sidecar.TruncatedNamesCollideIff | pkg/sidecar-controller/csi_handler.go:138-149 | truncated names collide exactly when the kept dash-free prefixes agree |
| Sidecar.MergeFromEmptyStatus | pkg/sidecar-controller/snapshot_controller.go:458-533 | a missing status and an empty one are merged alike |
| Rounds.RunPassFinishes | pkg/sidecar-controller/snapshot_controller.go:58-109 | a whole pass in the cluster leaves its content as the pass without interference does, and touches nothing else but the driver |
| Rounds.RunPassIsRun | pkg/sidecar-controller/snapshot_controller.go:58-109 | a whole pass begun in a reachable world, with a driver that keeps its contract, is part of a run and ends in a reachable world |
| Draining.DrainsInThreeRoundsIff | pkg/common-controller/snapshot_controller.go:223-354 | with a working API and an answering driver, a deleted snapshot, member of a group that is gone or of none, and its Delete-policy content are both gone after three rounds if and only if the content neither waits for a creation that cannot be sent nor has a handle and unreadable secrets, and no in-group finalizer is left on a snapshot whose status names no group or that has no other finalizer of the controllers |
| Draining.MissingClassIsRecorded | pkg/common-controller/snapshot_controller_base.go:386-400 | a class that is gone costs a deleted snapshot one turn more, in which only the error is written |
| Draining.RoundLowersRank | pkg/sidecar-controller/snapshot_controller.go:58-109 | every such round lowers the rank over pending creation, content and snapshot |
| Draining.BlockedForever | pkg/sidecar-controller/snapshot_controller.go:338-406 | a content that is stuck in either way stays, for any number of rounds and any answers |
| Draining.ForgottenForever | pkg/common-controller/snapshot_controller.go:294-312 | such a member stays, for any number of rounds and any answers |
| Stalling.RunIntoForgottenMember | pkg/common-controller/groupsnapshot_controller_helper.go:580-637 | a run leads there: a member is fanned out, bound, and deleted with its group before its status names the group |
| Stalling.RunIntoVainWait | pkg/sidecar-controller/snapshot_controller.go:338-406 | from any initial world and for any names a run leads into the first kind of stuck deletion, by a class with rejected parameters |
| Stalling.RunIntoLostSecrets | pkg/sidecar-controller/snapshot_controller.go:409-432 | and a run leads into the second kind, by secrets that cannot be read any more |
| Converging.Converges | pkg/common-controller/snapshot_controller.go:469-607 | from a fresh request, or whatever a crash left of one (no content or one without finalizer or status, being-created still on, any part of the snapshot's finalizers and status, errors), two rounds after a round in which the driver calls the snapshot ready, it is ready without error, bound both ways, protected, and its claim released |
| Stalling.RunIntoCrash | pkg/sidecar-controller/snapshot_controller.go:338-406 | a run that ends in a crash right after the announcement leaves such a request |
| Converging.NothingMoreToDo | pkg/sidecar-controller/snapshot_controller.go:88-109 | from there on neither controller makes a call and rounds change nothing |
| Converging.RoundFromBegun | pkg/common-controller/snapshot_controller.go:1146-1176 | one round completes what was left open, keeps the binding and carries the request one stage further |
| Binding.OnePassBinds | pkg/common-controller/snapshot_controller.go:1106-1143 | one pass without faults binds a pre-provisioned content and snapshot both ways and mirrors the status |
| Binding.StrangersAreRefused | pkg/common-controller/snapshot_controller.go:621-651 | a content of another snapshot, or one taken from a volume, is left untouched whatever becomes of the calls |
| Binding.UnboundDeletionCanOvertakeBinding | pkg/sidecar-controller/snapshot_controller.go:625-651 | there is a run in which DeleteSnapshot is sent for a content that is bound to a snapshot nobody deleted |
| Mirror.MirrorFollowsAndKeeps | pkg/common-controller/snapshot_controller.go:1212-1348 | readiness is the content's; bound name, creation time and group name are written once; a non-zero size is kept |
| Mirror.MirrorFillsIn | pkg/common-controller/snapshot_controller.go:1241-1311 | creation time, size and group name, while unknown, are taken from the content and its group; a size of zero gives way to a larger one |
| Mirror.ErrorIsMirroredIff | pkg/common-controller/snapshot_controller.go:1303-1306 | the exact condition under which the error is the content's; otherwise the snapshot keeps its own |
| Mirror.UntimedErrorSticks | pkg/common-controller/snapshot_controller.go:1303-1306 | an error without a time on the snapshot keeps the content's newer error out |
| Mirror.MissingStatusIsEmptyStatus | pkg/common-controller/snapshot_controller.go:1264-1281 | the branch for a missing status equals the merging branch on an empty status |
| Mirror.MirroringTwice | pkg/common-controller/snapshot_controller.go:1282-1311 | mirroring again changes nothing, and writes again only while both sides hold timestamped errors |
| Objects.RemoveString | pkg/utils/util.go:201-215 | the loop yields the list without the value, in order |
| Objects.DynamicContentNameInjective | pkg/utils/util.go:283-285 | contents of different snapshots have different names |
| ObjectStores.Cache.StoreObjectUpdate | pkg/utils/util.go:229-279 | the object is stored, judged old, or refused for an unreadable version, and the store changes accordingly |
| ObjectStores.RefusedIff | pkg/utils/util.go:229-279 | a stored object is replaced unless it is newer or one of the versions cannot be read |
| ObjectStores.Cache.UpdateObject | pkg/common-controller/snapshot_controller_base.go:532-582 | a sync body runs exactly when the store took the object, so never on one older than the stored |
| ObjectStores.StoresTheLastMaximum | pkg/utils/util.go:229-279 | over any sequence of numbered versions the stored object is the last that reached the running maximum |
| ObjectStores.AcceptedIffMaximum | pkg/utils/util.go:229-279 | an update is accepted exactly when it reaches the running maximum |
| EventFilter.ShouldEnqueueContentChange | pkg/utils/util.go:682-719 | an update is dropped exactly when the versions differ and everything but status, managed fields, finalizers and sidecar annotations agrees, absent and empty maps identified |
| EventFilter.DroppedUpdatesKeepShouldDelete | pkg/utils/util.go:682-719 | a dropped update that leaves being-created alone cannot change the decision to delete |
| Metrics.Conservation | pkg/metrics/metrics.go:190-253 | after any calls, operation by operation and in all, started = observed + dropped + running, and the gauge is the number running |
| Metrics.RecordingConserves | pkg/metrics/metrics_group.go:49-92 | recording keeps that balance, and a recorded delete leaves no create or create-and-ready entry of its UID |
| Metrics.LatencyIsElapsedTime | pkg/metrics/metrics.go:210-236 | whatever happens meanwhile, an operation is observed with the time since its first start, its kind and status, and the reported or else the cached driver |
| Metrics.DeletesCancel | pkg/metrics/metrics.go:237-267 | a recorded delete observes exactly the running creates of its UID as cancelled, with its own duration |
| Metrics.OperationMetricsManager.OperationStart | pkg/metrics/metrics.go:190-199 | a running operation is not started again; the gauge is refreshed |
| Metrics.OperationMetricsManager.DropOperation | pkg/metrics/metrics.go:202-207 | dropping an unknown operation only refreshes the gauge |
| Metrics.OperationMetricsManager.RecordMetrics | pkg/metrics/metrics.go:210-253 | an observation with the driver's or the cached name, the cancelled creates with the delete's duration, then removal |
| Metrics.OperationMetricsManager.RecordVolumeGroupSnapshotMetrics | pkg/metrics/metrics_group.go:49-92 | the same for group operations |
| Metrics.OperationMetricsManager.RecordCancelMetricLocked | pkg/metrics/metrics.go:257-267 | one cancel observation, and the create is gone from the cache |
| Conversion.DownThenUpIsIdentityIff | pkg/webhook/convert.go:71-161 | v1beta2 to v1beta1 to v1beta2 is the identity, absent and empty annotation maps identified, exactly when every number of the list survives being read as a double |
| Conversion.DownThenUpIsIdentity | pkg/webhook/convert.go:71-161 | in particular when all are exactly representable |
| Conversion.UpThenDownIsIdentityIff | pkg/webhook/convert.go:71-161 | v1beta1 to v1beta2 to v1beta1 is the identity up to the tracking annotation exactly when the entries lack the three dropped keys |
| Conversion.DowngradeSucceedsIff | pkg/webhook/convert.go:117-161 | downgrading fails exactly on a status or a list of the wrong shape |
| Conversion.UpgradePanicsIff | pkg/webhook/convert.go:71-94 | upgrading panics exactly when the tracking annotation is JSON but not a list |
| Conversion.UpgradedObjects | pkg/webhook/convert.go:35-115 | an object answered as v1beta2 has no old list, and has the new one exactly if the v1beta1 object had a list, and then that one |
| Conversion.DowngradedObjects | pkg/webhook/convert.go:35-161 | an object answered as v1beta1 has no new list, and has the old one exactly if the v1beta2 object had a list, with the entries as v1beta1 knows them |
| Conversion.RefusedIff | pkg/webhook/convert.go:35-69 | when an object is refused, and for which reason |
| Conversion.RequestsRoundTrip | pkg/webhook/framework.go:60-87 | a request for v1beta1 whose answer is sent in for v1beta2 is answered with the objects it began with exactly if the numbers of their lists survive |
| Conversion.OldRequestsRoundTrip | pkg/webhook/framework.go:60-87 | and the other way round, up to the tracking annotation, exactly if the entries are lean |
| Conversion.NonListsPanic | pkg/webhook/convert.go:71-94 | the JSON text of any value but a list, null among them, in that annotation panics |
| Conversion.ExactRoundTrip | pkg/webhook/convert.go:122-135 | a JSON value whose numbers are doubles survives being encoded and decoded |
| Conversion.Unstructured.FromV1beta1ToV1beta2 | pkg/webhook/convert.go:71-115 | the in-place upgrade computes the upgraded object, or its error |
| Conversion.Unstructured.FromV1beta2ToV1beta1 | pkg/webhook/convert.go:117-161 | the in-place downgrade, with its loop over the entries, computes the downgraded object, or its error |
| Conversion.ConvertGroupSnapshotCRD | pkg/webhook/convert.go:35-69 | kind and versions decide between the two conversions and the refusals, as `UpgradedObjects`, `DowngradedObjects` and `RefusedIff` spell out |
| Conversion.DoConversionV1 | pkg/webhook/framework.go:60-87 | all objects are converted, in order, or the first failure is reported and none is returned; `RequestsRoundTrip` is about these answers |
| GroupTeardown.GetVolumeGroupSnapshotParentObjectName | pkg/utils/vgs.go:34-52 | the loop finds the name of the first owner of the group kind |
| GroupTeardown.FirstParentStays | pkg/utils/vgs.go:34-52 | an owner appended later never takes the group's place |
| GroupTeardown.IndexedIffMember | pkg/utils/vgs.go:63-79 | with caret-free namespaces the index key of a snapshot is a group's key exactly when the group is the first group owner of the snapshot and in its namespace |
| GroupTeardown.GroupController.FindGroupSnapshotMembers | pkg/common-controller/groupsnapshot_controller_helper.go:1714-1736 | what the index returns for a group are its members, all of them and nothing else |
| GroupTeardown.ContentLetGoIff | pkg/common-controller/groupsnapshot_controller_helper.go:1543-1584 | a content pointing back at a deleted group, under its bound or its dynamic name, is let go (marked, a Delete-policy one also deleted, otherwise as before) exactly when the group has the bound finalizer and that name, and no member is being restored |
| GroupTeardown.HistoriesKeepBoundFirst | pkg/utils/util.go:531-534 | whatever happens, only bound groups carry the bound finalizer |
| GroupTeardown.UnboundDeletionStrands | pkg/common-controller/groupsnapshot_controller_helper.go:1446-1472 | a group deleted before it was bound never becomes a candidate for the deletion pass, and its content stays unmarked and undeleted until a user deletes it |
| GroupTeardown.HistoryThatStrands | pkg/common-controller/groupsnapshot_controller_helper.go:1546-1554 | three acts lead there from nothing, for any names |
| GroupTeardown.GroupController.DeleteMembers | pkg/common-controller/groupsnapshot_controller_helper.go:1650-1664 | success means every member is deleted, or gone if nothing held it; on failure some were, and nothing else changed |
| GroupTeardown.GroupController.LetGroupGo | pkg/common-controller/groupsnapshot_controller_helper.go:1622-1677 | content, members and finalizer are let go in this order wherever it stops: no member and no group is touched before a content that points back is let go |
| GroupTeardown.GroupController.AnyMemberIsBeingRestored | pkg/common-controller/groupsnapshot_controller_helper.go:1602-1618 | the loop answers whether some member is being restored |
| GroupTeardown.GroupController.ProcessGroupSnapshotWithDeletionTimestamp | pkg/common-controller/groupsnapshot_controller_helper.go:1525-1677 | without faults the pass computes the torn-down state `ContentLetGoIff` is about; with faults, nothing is touched while a member is being restored, only members and the content under the bound name are touched at all, a Retain content is at most marked, and the bound finalizer goes only after every member's delete was accepted and no Delete-policy content under the bound name points back |
| GroupFanOut.FanOut.CreateIndividualSnapshot | pkg/common-controller/groupsnapshot_controller_helper.go:580-637 | wherever it stops only the entry's two objects were touched, new ones made with policy, driver, secrets and group handle of the group content, from the volume's claim, old ones changed in binding and status only; success settles them with handle, readiness, time and size of the entry |
| GroupFanOut.FanOut.BindPair | pkg/common-controller/groupsnapshot_controller_helper.go:601-637 | content, snapshot and status are written in this order, each only once the one before is; success settles the entry |
| GroupFanOut.FanOut.CreateSnapshotsForGroupSnapshotContent | pkg/common-controller/groupsnapshot_controller_helper.go:499-527 | from any state an earlier fan-out was stopped in, a run in which nothing fails leaves for every entry a snapshot and a content pointing at each other with what the driver said of the entry and the handle of the group, touches planned names only, and makes new objects as above |
| GroupFanOut.AnotherRunAddsNothing | pkg/common-controller/groupsnapshot_controller_helper.go:726-760 | once all entries are settled another run adds no object |
| GroupFanOut.OnePairEach | pkg/common-controller/groupsnapshot_controller_helper.go:876-884 | distinct entries settle on distinct objects |
| GroupFanOut.NamesOfAPair | pkg/common-controller/groupsnapshot_controller_helper.go:876-884 | names depend on group and volume alone |
| GroupFanOut.DistinctVolumesAreSeparate | pkg/common-controller/groupsnapshot_controller_helper.go:876-884 | distinct volumes have distinct digests under a hash without collisions among them |
| GroupSidecar.NoGroupLeakInEveryRun | pkg/sidecar-controller/groupsnapshot_helper.go:390-464 | in every run a group snapshot held or pending at the driver is announced by being-created or a recorded group handle, with the exception known from single contents |
| GroupSidecar.UnsafeGroupDeleteLeaks | pkg/sidecar-controller/groupsnapshot_helper.go:390-464 | that exception is real |
| GroupSidecar.GroupRunThatLeaks | pkg/sidecar-controller/groupsnapshot_helper.go:390-464 | from every new Delete-policy content with a class and no finalizer a run of four steps ends in a leak |
| GroupSidecar.NoGroupCreationAfterDeletion | pkg/sidecar-controller/groupsnapshot_helper.go:342-368 | in every run no CreateGroupSnapshot follows a DeleteGroupSnapshot |
| GroupSidecar.GroupPassesEnd | pkg/sidecar-controller/groupsnapshot_helper.go:241-308 | every call brings the pass closer to its end, and no call leads back to deleting, although clearing the status syncs the content again |
| GroupSidecar.MemberlessGroupsStay | pkg/sidecar-controller/csi_handler.go:170-189 | a pass over a group content without member handles leaves it as it is, whatever the answers |
| GroupDraining.GroupDrainsInThreePassesIff | pkg/sidecar-controller/groupsnapshot_helper.go:173-209 | with a working API and a driver that answers and names the members of what it creates, a deleted Delete-policy group content is gone after three passes if and only if no announced creation waits in vain, and it has no handle or readable secrets and members |
| GroupDraining.GroupDeletedInOnePassIff | pkg/sidecar-controller/groupsnapshot_helper.go:241-284 | without being-created a single pass is enough, exactly when there is no handle, or there are readable secrets and members |
| GroupDraining.GroupStuckForever | pkg/sidecar-controller/groupsnapshot_helper.go:342-368 | a stuck group content stays stuck, for any number of passes and any answers |
| GroupDraining.RunIntoMemberlessGroup | pkg/sidecar-controller/groupsnapshot_helper.go:390-464 | from every new Delete-policy content with a class and no finalizer a run records a group without members and leaves it stuck |
| GroupSidecar.GroupSidecarController.SyncGroupSnapshotContent | pkg/sidecar-controller/groupsnapshot_helper.go:173-209 | the mutually recursive code ends, calls DeleteGroupSnapshot at most once, and leaves what the cut pass leaves |
| GroupRecording.GroupPassBeginsIff | pkg/sidecar-controller/groupsnapshot_helper.go:173-209 | when a pass over a group content deletes, asks for a status, creates, unannounces or lets go, exactly |
| GroupRecording.GroupCreationIsRecorded | pkg/sidecar-controller/groupsnapshot_helper.go:390-464 | what the driver said on a creation is recorded with its members, unannounced, and nothing else changes |
| GroupRecording.GroupFailureIsRecorded | pkg/sidecar-controller/groupsnapshot_helper.go:419-440 | a failure is recorded with its time; the announcement goes exactly if the driver has given up |
| GroupRecording.UnusableGroupInputIsRecorded | pkg/sidecar-controller/groupsnapshot_helper.go:390-413 | as are unusable inputs, bad parameters after the announcement |
| GroupRecording.GroupStatusIsRecorded | pkg/sidecar-controller/groupsnapshot_helper.go:752-800 | a status read for an imported group snapshot is recorded |
| GroupRecording.GroupStatusErrorIsRecorded | pkg/sidecar-controller/groupsnapshot_helper.go:735-790 | and a failure to read it, or the lack of inputs |
| GroupRecording.CreatedMembersAreNamed | pkg/sidecar-controller/csi_handler.go:170-189 | a group snapshot is deleted with exactly the members it was created with, in their order |
| GroupRecording.GroupDeletionIsRecorded | pkg/sidecar-controller/groupsnapshot_helper.go:241-284 | after a deletion all but the members is cleared, and the finalizer goes if the cache takes the cleared content |
| GroupSidecar.GroupSidecarController.DeleteCSIGroupSnapshotOperation | pkg/sidecar-controller/groupsnapshot_helper.go:241-284 | one call at most, then the cleared content is synced at once |
| GroupSidecar.GroupSidecarController.UpdateGroupSnapshotContentInInformerCache | pkg/sidecar-controller/groupsnapshot_helper.go:141-163 | the nested sync finds no handle and deletes nothing more |
| GroupSidecar.GroupSidecarController.CreateGroupSnapshotWrapper | pkg/sidecar-controller/groupsnapshot_helper.go:390-464 | announcing, creating, recording and unannouncing is the creating part of the cut pass; what that leaves is in `GroupRecording` |

## Assumptions

* Each pass of the common controller reads the current objects, one call at a time; caches do not lag.
  What lag could do to a worker is the subject of `ObjectStores`.
* The patches that replace the whole annotation map, and the two status updates that read and write the
  latest object, are each one step on the current object; a JSON patch (sections 4.1 to 4.3 of RFC 6902)
  is modelled by its effect. With stale copies of the annotation map the invariants would not hold.
* Users do not edit annotations, finalizers or binding fields the controllers own, deletion policies do
  not change, an administrator's content does not name the UID of a snapshot already deleted, and an object
  name is not given out again while a pass over its old holder is under way (`Cluster.NameIsFree`; a
  create call at such a moment is refused).
* UIDs given to fan-out members contain a dash and the digests in names of their contents do not, so no
  digest is a UID; namespaces contain no caret.
* The driver keeps to sections "CreateSnapshot" and "DeleteSnapshot" of the Container Storage Interface
  specification: creation is idempotent by name; after a cancelled, timed-out, unavailable, exhausted or
  aborted call a creation may go on, and after any other error it does not and nothing exists under the
  name (`Driver`); handles are not handed out again, and handles administrators name were not made by CreateSnapshot.
* A time is an opaque value and a deletion timestamp a flag; a creation time is the one the sidecar goes on with, the
  clock's where the driver gives none.

## Left out

- Common.SyncSnapshotByKey: does not model the choice of a default class (a dynamic snapshot without a class stops there with an error), nor the pass the code still makes over a deleted snapshot's old copy when the answer to the error update was lost.
- Leaks.NoLeakInEveryRun: says nothing more about a UID after a Retain content for it was let go.
- GroupFanOut.FanOut.CreateSnapshotsForGroupSnapshotContent: other controllers do not act between its calls; across whole runs its writes are steps of `Cluster`.
- GroupSidecar.NoGroupLeakInEveryRun: one content in isolation; names at the driver are one to one with UIDs as for single snapshots.
- GroupDraining.GroupDrainsInThreePassesIff: the sidecar's passes alone, over a content the common controller already marked and deleted.
- GroupTeardown.UnboundDeletionStrands: writes of the sidecar to the group content are not among the acts; none of them sets the mark or deletes.
- Mutating the cached content before the being-deleted patch is sent: with it a failed patch leaves a cached object that differs from the stored one until the next event.
- Which cache an update is stored in; the being-created update of a group content goes to the cache of single contents.
- updateGroupSnapshotStatus, checkAndBindGroupSnapshotContent and the creation of group contents: they repeat the single-snapshot logic on group objects.
- Secret lookup and templates, volume modes, node matching for distributed snapshotting, persistent volume lookup beyond "bound both ways with a CSI handle or not".
- Driver matching and the requeue rule of the sidecar's worker loop: a pass may begin at any time.
- Events, logging, work-queue back-off, leader election, flags, HTTP serving and certificates.
