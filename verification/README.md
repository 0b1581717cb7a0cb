# Verified models of sandboxer's protocols

sandboxer runs applications in MicroVMs and publishes their disks, memory and configuration as artifacts. This project
models the parts of it whose correctness depends on every interleaving, every crash point, every way of cutting a
stream or every input, and proves what they promise. `dafny verify dfyconfig.toml` checks all of it.

Code that runs under one lock, or alone, is a class or a method with loops, proved against functions of the old state.
Code whose steps interleave with other goroutines, processes or publishers is a transition system whose steps are the
critical sections, compare-and-swaps, messages and system calls; a run is a sequence of states and events, and the main
results hold of every state of every run.

| file | what it models | main results |
|---|---|---|
| `rewrite.dfy`, `sparse.dfy` | artifact rewriting and the sparse comparison that guards it | `RewriteChain`, `RewriteAll`, `CompareSparseStreams` |
| `reset.dfy` | crash-recoverable reset of several disks | `HistoryIsSafe`, `SuccessesAgree`, `ResetCurrentDisks` |
| `console.dfy` | console pumps across sessions and app restarts | `OutputIsFaithful`, `CutHasCause`, `DrainedIsDelivered` |
| `runidentity.dfy` | ownership and cleanup of a run directory | `CleanupStaysHome`, `OneHolder`, `PidLockIsKept` |
| `publish.dfy` | fresh publication of one file | `PublicationIsSafe`, `ForeignRemoval` |
| `bundle.dfy` | publication of a Bundle graph | `PutBundle`, `AgreeSelectsSame` |
| `cleanup.dfy` | version cleanup of a checkpoint directory | `CleanupVersions`, `RetryIsAccepted` |
| `usage.dfy` | the usage gate across overlapping reattaches | `RunKeepsInv`, `SettledGate`, `FailuresClose` |
| `memreport.dfy` | memory reports and their admission word | `CountIsExact`, `DrainIsABarrier`, `RunKeepsOrder` |
| `child.dfy` | the handshake with the re-exec helper | `ProtocolIsSafe` |
| `exec.dfy` | the exec registry | `StatusOnce`, `BarrierMeansQuiet` |
| `dirty.dfy` | dirty-memory descriptions | `Validate`, `PageHasOneBit` |
| `journal.dfy` | journal line framing | `Write`, `FramingIsCanonical` |
| `netlink.dfy` | netlink attributes (section 2.2 of RFC 3549) | `RoundTrip`, `ParsedSelection`, `LengthDecides` |

What is assumed rather than proved:

- Rewriting: sources return the bytes they hold or an error, equal commitments mean equal content, a layered source
  reads the first layer that is not a hole, publishing is content-addressed, a portable name means one object, and a
  reference is used in one way (disk, image or memory) within a publication. An image is the base of a root with an
  overlay and has no layers below it: pkg/config/portable.go:823-826 refuses any, so an image is never flattened.
- Reset: nobody else writes the locked directory; a document's reference is a function of its content.
- Files: an inode number is reused only when nothing names or pins its object. In a run directory only guards remove
  entries; others may create them. At a Bundle destination other publishers create files but do not remove any.
- Console: reading an app descriptor fails only at the end of its output or after sandbox-init closed it.
- Exec registry: a delivered pid is an exec child's and is not reused before `done`.

Where the code does not do what its surroundings suggest, the code is followed:

- `parseAddrEntry` re-slices past the end of its input when the last attribute is unpadded. Encoded lists never do
  this; `LengthDecides` gives the payload lengths at which no input can.
- The cleanup of a fresh publication checks the path and then unlinks it, so a file put there in between is removed;
  `ForeignRemoval` states exactly when, by what others did in between. The check itself never mistakes a recycled inode.
- Version cleanup reports success without looking at the keep set when the `diffs` directory does not exist. A request
  that names a store it keeps nothing of is refused when it is repeated after that store was retired
  (`RetryCanBeRefused`); the one caller, pkg/artifact/checkpoint.go:203-210, never builds such a request.

## Model

| member | source | states |
|---|---|---|
| `Sparse.CompareSparseStreams` | pkg/artifact/rewrite.go:26-99 | a nil result means same size, layout and bytes everywhere however the sides cut their runs; without faults this is an equivalence, and a reported difference is at a cell that differs; it terminates |
| `Sparse.ComparePresent` | pkg/artifact/rewrite.go:70-95 | the common part of two present runs is compared chunk by chunk, a Zero run standing for zero bytes |
| `Sparse.Fill` | pkg/artifact/rewrite.go:73-89 | the buffer holds the run's bytes at the offset, or the read failed |
| `Sparse.ChunkDecides` | pkg/artifact/rewrite.go:90-93 | equal buffers extend the agreement, different ones single out a differing cell |
| `Layers.LayeredSingle` | pkg/artifact/rewrite_plan.go:517-526 | a single layer reads as itself, which is why the layering may be bypassed |
| `Rewrite.ParseRewriteOptions` | pkg/artifact/rewrite.go:110-181 | accepts exactly the strings that spell rules such that replacements share no reference, no reduction names one of theirs, selectors do not conflict and a catch-all stands alone; the options are the rules spelled |
| `Rewrite.ReadReplacements` | pkg/artifact/rewrite.go:113-125 | each string spells a replacement, or some string spells none |
| `Rewrite.ReadReductions` | pkg/artifact/rewrite.go:138-157 | each string spells a reduction, or some string spells none |
| `Rewrite.CutJoined` | pkg/artifact/rewrite_plan.go:68-83 | a rendered rule is cut back into its parts exactly if the first part has no equals sign |
| `Rewrite.ReparseOptions` | pkg/artifact/rewrite_plan.go:68-86 | options as the parser makes them, rendered as strings and parsed again, come back unchanged if no part before an equals sign contains one and no reduction reads as the catch-all; they come back only then if canonical spelling adds no equals sign |
| `Rewrite.ParserMakesParsed` | pkg/artifact/rewrite.go:110-181 | what the parser accepts is in that form, given that canonical spelling is canonical and not empty |
| `Rewrite.CheckRules` | pkg/artifact/rewrite.go:137-180 | accepts exactly acceptable rule lists and keeps the rules |
| `Rewrite.ParseReplacements` | pkg/artifact/rewrite.go:126-134 | accepts exactly when no two rules share a reference and none is empty, and collects all endpoints |
| `Rewrite.ParseReductions` | pkg/artifact/rewrite.go:158-165 | accepts exactly when no selector is given two targets, and keeps each selector once, in the order of first mention |
| `Rewrite.SinglePass` | pkg/artifact/rewrite.go:205-216 | a replaced reference is never replaced again |
| `Rewrite.Session.Replace` | pkg/artifact/rewrite.go:205-216 | the result is the rule's target if there is a rule, and exactly the rule that applies is marked as matched |
| `Rewrite.Session.Reduce` | pkg/artifact/rewrite.go:218-232 | the reduction that applies to a top with or without lowers, and exactly the rule that selects the top is marked |
| `Rewrite.Session.CheckMatched` | pkg/artifact/rewrite.go:234-249 | true exactly if every rule has matched a reference |
| `Rewrite.Publication.OverlapsReduction` | pkg/artifact/rewrite.go:253-273 | true exactly when an endpoint of a replacement lies on the chain |
| `Rewrite.Publication.OpenValue` | pkg/artifact/rewrite_plan.go:308-362 | the opened value carries the reference's payload, configuration and force flag |
| `Rewrite.Publication.ChangedValue` | pkg/artifact/rewrite_plan.go:363-382 | a replacement is used only if it reads the same cells and, for an image, has the same configuration; with healthy sources it is accepted exactly then |
| `Rewrite.Publication.MemoryTarget` | pkg/artifact/rewrite_plan.go:385-398 | a merged memory target may be a bare stream of the required size, and is otherwise opened like any reference |
| `Rewrite.Publication.PlanChain` | pkg/artifact/rewrite_plan.go:400-494 | with verification on, a planned chain reads what the original chain reads; with healthy sources a chain is planned exactly if nothing overlaps, its layers fit, its kept references are distinct and its target reads the original |
| `Rewrite.Publication.PlanOpened` | pkg/artifact/rewrite_plan.go:440-493 | the part of planning that opens the layers: the result reads the original, keeps an image base's configuration, and with healthy sources exists exactly for plannable chains |
| `Rewrite.Publication.DecideReduction` | pkg/artifact/rewrite_plan.go:408-416 | the reduction for the chain, refused exactly if replacements overlap it |
| `Rewrite.Publication.PlanLayers` | pkg/artifact/rewrite_plan.go:440-459 | all layers have one size and their stack reads the original; with healthy sources it succeeds exactly for an embedded or admissible top and admissible lowers of its size |
| `Rewrite.Publication.PlanTop` | pkg/artifact/rewrite_plan.go:440-447 | the embedded value, or the base as any other reference |
| `Rewrite.Publication.PlanLower` | pkg/artifact/rewrite_plan.go:449-458 | one lower: usable only if as large as the top and reading its original; with healthy sources exactly if admissible and of that size |
| `Rewrite.Publication.PlanLowers` | pkg/artifact/rewrite_plan.go:449-458 | each lower is as large as the top, stands for its mapped reference and reads the original one; with healthy sources it succeeds exactly if all are admissible and of that size |
| `Rewrite.Publication.PlanTarget` | pkg/artifact/rewrite_plan.go:460-480 | an explicit reduction target reads what the layers read together and, for an image, has the top's configuration; with healthy sources it is accepted exactly then |
| `Rewrite.Publication.PlanUnverified` | pkg/artifact/rewrite_plan.go:417-439 | a target the caller vouches for still has the embedded top's size |
| `Rewrite.Publication.PlanStack` | pkg/artifact/rewrite_plan.go:460-493 | the layers become a target, a flattened chain or stay as they are, as the reduction says; kept references are distinct |
| `Rewrite.Publication.LayerValues` | pkg/artifact/rewrite_plan.go:517-526 | the source reads the values' payloads, first layer that is not a hole first |
| `Rewrite.Publication.PositionsDistinct` | pkg/artifact/rewrite_plan.go:500-512 | true exactly when the external references of a kept chain are distinct |
| `Rewrite.Publication.ReadsGrows` | pkg/artifact/rewrite_plan.go:527-586 | later publications never change what an emitted chain reads |
| `Rewrite.Publication.ChainGrows` | pkg/artifact/rewrite_plan.go:587-592 | later publications neither spoil a plan nor change what an emitted chain reads |
| `Rewrite.Publication.EmitValue` | pkg/artifact/rewrite_plan.go:527-549 | the reference it returns reads the value's cells and has its configuration; a portable reference is returned as it is and nothing is published |
| `Rewrite.Publication.EmitLayers` | pkg/artifact/rewrite_plan.go:571-585 | every lower reference and the base read their layers once the loop has run |
| `Rewrite.Publication.EmitReduced` | pkg/artifact/rewrite_plan.go:551-570 | a reduced chain's base alone reads the chain |
| `Rewrite.Publication.EmitChain` | pkg/artifact/rewrite_plan.go:550-586 | on success the slot's references read what the plan reads, with the embedded top where there is one, and the base has the planned value's configuration; only layers put together into one bare stream have none |
| `Rewrite.Publication.RewriteChain` | pkg/artifact/rewrite_plan.go:400-586 | planning then emitting, with verification on, leaves references that read the original chain cell by cell, for every rule set, replacement, reduction target, automatic flattening and embedded top; an image base, which has no layers below it, keeps its configuration; with healthy sources a chain is planned exactly if it is plannable; a planned chain fails to be emitted only if a publish call failed |
| `Rewrite.Publication.RewriteAll` | pkg/artifact/rewrite_plan.go:66-142 | nothing is published unless every chain was planned and every rule matched; with healthy sources this is so exactly if every chain is plannable and every rule was matched before or applies to a reference or selector of the configuration; after the last chain is emitted every chain still reads its original and every image base has its original configuration |
| `Rewrite.Publication.PlanAll` | pkg/artifact/rewrite_plan.go:243-302 | all chains are planned from their own slots, with values of their own, before anything is published; each reads its original, exactly the rules that apply are marked, and with healthy sources it succeeds exactly if every chain is plannable |
| `Rewrite.Publication.EmitAll` | pkg/artifact/rewrite_plan.go:587-592 | each emitted chain still reads its plan when the last one is done |
| `Reset.Directory.ResetCurrentDisks` | pkg/artifact/current_disks.go:362-475 | one attempt, stopped at any boundary, only advances disks from their recorded state under a record, never adopts a version without a record or a foreign record, keeps recoverability and, not stopped, succeeds from a recoverable state |
| `Reset.Directory.ClaimOperation` | pkg/artifact/current_disks.go:362-389 | takes over a record that is its own or writes one if no disk has the version; refuses only states that are not recoverable, and touches no disk |
| `Reset.Directory.CarryOut` | pkg/artifact/current_disks.go:390-475 | under a record, disks only advance from their recorded state and only a disk or reference that does not fit the record is refused |
| `Reset.Directory.AdvanceDisks` | pkg/artifact/current_disks.go:396-426 | each disk is untouched or gained the version from its recorded state; it refuses only a disk in neither state |
| `Reset.Directory.PublishDocument` | pkg/artifact/current_disks.go:427-475 | the document is content-checked and its reference recorded; an earlier, different reference is refused |
| `Reset.Directory.VersionExists` | pkg/artifact/current_disks.go:373-383 | true exactly when some disk already lists the operation's version |
| `Reset.AttemptKeepsRecoverable` | pkg/artifact/current_disks.go:362-475 | an attempt, however it ends, leaves the operation recoverable |
| `Reset.HistoryIsSafe` | pkg/artifact/current_disks.go:362-475 | after any number of crashes and retries every disk has its recorded state or gained the operation's version exactly once and has it as current |
| `Reset.SuccessNamesDocument` | pkg/artifact/current_disks.go:427-475 | every success names the document of the disks the history started with |
| `Reset.SuccessesAgree` | pkg/artifact/current_disks.go:362-475 | all successes of a history return the same reference |
| `Reset.NothingAfterSuccess` | pkg/artifact/current_disks.go:362-475 | after a success further attempts change no disk |
| `Reset.FinishedOnce` | pkg/artifact/current_disks.go:396-426 | each disk gained the version exactly once |
| `Console.DrainMask` | cmd/sandbox-init/console.go:141-153 | the roles waited for are exactly those that have a descriptor |
| `Console.Drain.Mark` | cmd/sandbox-init/console.go:110-126 | the done channel is closed by the mark that empties the set, and only once |
| `Console.SessionHolder.Set` | cmd/sandbox-init/console.go:743-748 | the newest session takes the slot |
| `Console.SessionHolder.Invalidate` | cmd/sandbox-init/console.go:752-759 | the slot is cleared only if it still holds that session |
| `Console.SessionHolder.Wait` | cmd/sandbox-init/console.go:763-774 | returns the session, and none exactly on shutdown |
| `Console.Bridge.WaitNextFd` | cmd/sandbox-init/console.go:199-211 | fails only if the bridge closed and no newer generation was installed |
| `Console.Bridge.Install` | cmd/sandbox-init/console.go:296-311 | installs exactly if the bridge is open and the generation is unchanged |
| `Console.Bridge.CloseEnds` | cmd/sandbox-init/console.go:230-242 | the generation is cut exactly if it was open and some role had not drained, no other generation changes, and generations stay handed over in order |
| `Console.MoveKeepsLane` | cmd/sandbox-init/console.go:633-678 | every step of a pump keeps its lane's invariant: bytes accounted for, marks only after the last byte was forwarded, sessions in order |
| `Console.InstallKeepsLane` | cmd/sandbox-init/console.go:214-219 | a new generation disturbs no pump |
| `Console.RunKeepsInv` | cmd/sandbox-init/console.go:93-312 | every reachable state of pumps, rewires, attaches and shutdown satisfies the invariant |
| `Console.CutHasCause` | cmd/sandbox-init/console.go:253-312 | in every run a generation is cut by its own drain running out of time, or else it is the last one and the application closed the bridge |
| `Console.OutputIsFaithful` | cmd/sandbox-init/console.go:633-678 | what sessions accepted plus what the pump holds is exactly what was read, sessions accept in attach order, a generation left behind was read to its end unless its own drain ran out of time, and where that happened to none the accepted bytes are a prefix of all output, shut down or not |
| `Console.DrainedIsDelivered` | cmd/sandbox-init/console.go:93-126 | when the newest generation has drained and none was cut, everything written has been accepted |
| `Console.DrainedShutdownCutsNothing` | cmd/sandbox-init/console.go:571-610 | if every pump returned before the holder was shut down, closing the ends cuts no generation |
| `Console.RewireFailsOnlyWhenClosed` | cmd/sandbox-init/console.go:296-311 | a rewire never finds the generation changed; only the closing of the bridge makes it fail |
| `RunIdentity.CheckDirIsExact` | internal/runidentity/identity_linux.go:89-99 | the identity check passes only if the path names the very directory opened, whatever numbers are reused |
| `RunIdentity.SamePidIsExact` | internal/runidentity/identity_linux.go:167-176 | SameFile on the PID entry holds exactly when it is the guard's own file, and then the path names the guard's directory |
| `RunIdentity.LeavesKeepsInv` | internal/runidentity/identity_linux.go:226-241 | closing or failing drops the actor's own locks and disturbs nobody |
| `RunIdentity.OpenedPidKeepsInv` | internal/runidentity/identity_linux.go:112-117 | opening or creating the PID entry keeps the invariant |
| `RunIdentity.RemovedDirKeepsInv` | internal/runidentity/identity_linux.go:218-224 | removing the empty directory disturbs no other actor |
| `RunIdentity.StepKeepsInv` | internal/runidentity/identity_linux.go:44-241 | every system call of any actor, a crash, or a file created by others keeps the invariant |
| `RunIdentity.CleanupStaysHome` | internal/runidentity/identity_linux.go:155-224 | in every run, whatever a guard deletes by path is in, or is, the directory whose lock it holds |
| `RunIdentity.OneHolder` | internal/runidentity/identity_linux.go:72-99 | in every run, at most one guard holds the directory the path names |
| `RunIdentity.PidLockIsKept` | internal/runidentity/identity_linux.go:29-35 | in every run, a process keeps its PID lock while its guard lives: no other descriptor of the file is closed by it |
| `RunIdentity.StaleGuardIsHarmless` | internal/runidentity/identity_linux.go:167-176 | a guard whose directory is gone deletes nothing even if a successor's entry has the same name, and a late opener of that directory fails |
| `Publish.AdvanceKeepsPins` | pkg/artifact/location_target.go:232-359 | every call of the publisher, failing or not, keeps the created file pinned while cleanup may remove the path |
| `Publish.OthersKeepPins` | pkg/artifact/location_target.go:269-279 | so does any unlink or replacement by others |
| `Publish.RunKeepsInv` | pkg/artifact/location_target.go:232-359 | in every run live files have distinct inode numbers and the created file stays pinned while cleanup may remove the path |
| `Publish.Identified` | pkg/artifact/location_target.go:290-292 | the number of a file that is still live identifies it at the path |
| `Publish.PublicationIsSafe` | pkg/artifact/location_target.go:232-359 | in every run: pinned while owned, the cleanup check is exact, success means the validated file was at the path at the last check, cleanup leaves no incomplete file |
| `Publish.CheckedBeforeRemoval` | pkg/artifact/location_target.go:537-549 | every unlink by cleanup has a passed check before it that found the created file, with only others acting in between |
| `Publish.ForeignRemoval` | pkg/artifact/location_target.go:537-549 | what cleanup's unlink removes, by what others did since the check that allowed it: the created file exactly if they did nothing, another's file exactly if the last thing they did was to put one there, nothing exactly if it was to unlink |
| `Publish.ReplacementCanBeRemoved` | pkg/artifact/location_target.go:537-549 | a run, from the exclusive create on, whose cleanup removes a replacement |
| `Bundles.AgreeSelectsSame` | pkg/artifact/location_bundle.go:290-314 | directories that agree on the refs select the same carrier with the same content for every key |
| `Bundles.UnexpectedFileShadows` | pkg/artifact/location_bundle.go:183-198 | a file at an unavailable name takes over every key it has that nothing before it carries |
| `Bundles.PinBundlePlan` | pkg/artifact/location_bundle.go:95-181 | succeeds exactly for publishable plans; pins each available local ref once, in ref order, the root last, lists the missing ones and the Manifests to verify |
| `Bundles.PinRefs` | pkg/artifact/location_bundle.go:106-141 | refuses exactly an invalid ref, one to the root itself or an unreadable file; the others are pinned, skipped or listed as missing |
| `Bundles.ResolveChosen` | pkg/artifact/location_bundle.go:152-179 | refuses exactly an unrecorded selection or one from a ref that was not pinned, and leaves located ones out |
| `Bundles.VerifierOf` | pkg/artifact/location_bundle.go:298-314 | the first copied Bundle with the key, the root before the dependencies |
| `Bundles.CheckCopied` | pkg/artifact/location_bundle.go:298-314 | true exactly if every copied Manifest is in the root or a copied dependency |
| `Bundles.VerifiedAsSelected` | pkg/artifact/location_bundle.go:290-314 | for a key selected from a copied Bundle, that is what the source lookup selects |
| `Bundles.RecordedIsComplete` | pkg/artifact/location_bundle.go:155-178 | if the plan records what the source lookup selects, the published graph omits nothing |
| `Bundles.Publication.CheckAbsent` | pkg/artifact/location_bundle.go:183-198 | true exactly when none of the names is present |
| `Bundles.Publication.PutFile` | pkg/artifact/location_bundle.go:332-350 | an existing file is accepted only if it is a byte copy and never overwritten; the root requires its dependencies in place |
| `Bundles.Publication.PutNext` | pkg/artifact/location_bundle.go:65-76 | one file is added, and the root only after the unavailable names were found absent and every dependency in place |
| `Bundles.Publication.PutFiles` | pkg/artifact/location_bundle.go:62-76 | all pinned files end up in place, the root created only after every dependency, with others at work in between |
| `Bundles.Publication.PutBundle` | pkg/artifact/location_bundle.go:30-93 | success means every key is found at the destination as at the source and no copied Manifest is missing; nothing is changed for an unpublishable plan, and a complete plan succeeds when its names are free and no copy fails |
| `Cleanup.Directory.Inspect` | pkg/artifact/diff_checkpoint.go:397-429 | accepts exactly a readable store with its own identity, live if needed and with every kept version, and finds what to remove |
| `Cleanup.Directory.Plan` | pkg/artifact/diff_checkpoint.go:391-450 | succeeds exactly for acceptable requests, with one plan for every store that is not active |
| `Cleanup.Directory.Apply` | pkg/artifact/diff_checkpoint.go:455-466 | changes one store only, towards its cleaned state even if the call stops half way; a store that cannot be opened is left as it is and fails |
| `Cleanup.Directory.Sweep` | pkg/artifact/diff_checkpoint.go:451-468 | a failure loses no kept version and leaves later stores alone |
| `Cleanup.Directory.CleanupVersions` | pkg/artifact/diff_checkpoint.go:377-469 | refuses exactly unacceptable requests and then changes nothing; success leaves exactly the kept versions, removes stores with none, and leaves active stores unchanged; however it ended, the request is accepted again exactly unless it names a store it keeps nothing of that is gone |
| `Cleanup.RetryIsAccepted` | pkg/artifact/diff_checkpoint.go:439-468 | after an interruption the request is accepted again exactly unless it names a store it keeps nothing of that is gone |
| `Cleanup.RetryCanBeRefused` | pkg/artifact/diff_checkpoint.go:439-443 | two calls with the same request: the first succeeds and the second is refused |
| `Usage.Service.Pause` | cmd/sandbox-init/usage.go:313-355 | closes the gate under a new generation and cancels the connection |
| `Usage.Service.RollbackResume` | cmd/sandbox-init/usage.go:320-327 | closes the gate only for the newest, uncommitted attempt |
| `Usage.Service.Resume` | cmd/sandbox-init/usage.go:356-372 | opens the gate under a new generation, forgets the old host's IDs for a new one, and says who owes a rollback |
| `Usage.Service.CommitResume` | cmd/sandbox-init/usage.go:374-380 | commits only the newest attempt |
| `Usage.Service.Enter` | cmd/sandbox-init/usage.go:248-257 | one connection at a time, none while paused |
| `Usage.Service.Request` | cmd/sandbox-init/usage.go:269-292 | a request is valid exactly when it is well formed, its read budget is within a second, the gate admits its epoch and it is newer than the last |
| `Usage.RunKeepsInv` | cmd/sandbox-init/vsock.go:531-571 | in every run of overlapping attempts an open, uncommitted gate has its newest attempt outstanding, and accepted IDs of an epoch increase |
| `Usage.OvertakenIsHarmless` | cmd/sandbox-init/usage.go:320-327 | a commit or rollback by an overtaken attempt changes nothing |
| `Usage.SettledGate` | cmd/sandbox-init/vsock.go:531-571 | with no attempt outstanding after a pause, the gate is open exactly if the newest attempt committed |
| `Usage.FailuresClose` | cmd/sandbox-init/vsock.go:542-550 | if no attempt since a pause succeeded, the gate is closed again |
| `Usage.CancelledStaysSilent` | cmd/sandbox-init/usage.go:276-292 | a connection cut off by a pause never has another request accepted |
| `Usage.Source.Begin` | cmd/sandbox-init/usage.go:33-40 | starts a read exactly if none is in flight and the source is not closed |
| `Usage.Source.Finish` | cmd/sandbox-init/usage.go:53-60 | the last read of a stopped source closes its handle |
| `Usage.Source.Stop` | cmd/sandbox-init/usage.go:65-77 | the handle is closed once, and never under a read |
| `Admission.NextKeepsInv` | cmd/sandbox-init/main.go:816-899 | every load and compare-and-swap keeps the low bits equal to the number of admitted, unfinished attempts |
| `Admission.CountIsExact` | cmd/sandbox-init/main.go:811-899 | so in every run, and the underflow panic is unreachable |
| `Admission.DrainIsABarrier` | cmd/sandbox-init/main.go:852-866 | when a drain loop exits no attempt is active, and none is until some thread resumes |
| `MemReport.Stream.Attempt` | cmd/sandbox-init/main.go:910-948 | the new state is that of one attempt: the retained report again, or a new number |
| `MemReport.Stream.AdvanceEpoch` | cmd/sandbox-init/main.go:871-883 | the next epoch, starting at no number, unless epochs are exhausted |
| `MemReport.TryKeepsOrder` | cmd/sandbox-init/main.go:910-948 | an attempt keeps the order of what was sent |
| `MemReport.RunKeepsOrder` | cmd/sandbox-init/main.go:871-948 | over any run reports never go back in (epoch, seq), a repeated number repeats the report, an acknowledged one is not repeated, and a number follows the acknowledgement of the one before it |
| `ChildSync.ParentKeepsInv` | cmd/sandbox-init/child.go:135-208 | every step of the parent keeps the joint invariant |
| `ChildSync.ChildKeepsInv` | cmd/sandbox-init/child.go:81-119 | every step of the helper keeps it |
| `ChildSync.NoDeadlock` | cmd/sandbox-init/child.go:92-208 | in a state that has not ended some side can go on |
| `ChildSync.StepKeepsInv` | cmd/sandbox-init/child.go:81-208 | every step, the helper's death included, keeps the invariant and brings the end nearer |
| `ChildSync.ProtocolIsSafe` | cmd/sandbox-init/child.go:81-208 | in every run the final exec follows both callbacks, a helper leaving through fail leaves after onFailure, the verdict is right, and the run ends within seventeen steps |
| `ExecRegistry.Reg.BeginSession` | cmd/sandbox-init/exec.go:75-83 | a session is admitted exactly if no quiesce is under way |
| `ExecRegistry.Reg.EndSession` | cmd/sandbox-init/exec.go:85-93 | the last session to end closes the barrier |
| `ExecRegistry.Reg.Register` | cmd/sandbox-init/exec.go:98-110 | the child's channel, already holding the status if the reaper was first |
| `ExecRegistry.Reg.Deliver` | cmd/sandbox-init/exec.go:115-126 | the status goes to the waiter, or waits for one |
| `ExecRegistry.Reg.BeginQuiesce` | cmd/sandbox-init/exec.go:140-161 | admission stops, and the live children, sessions and the barrier are handed out |
| `ExecRegistry.ChildKeepsInv` | cmd/sandbox-init/exec.go:98-135 | fork, register, reap and receive in any order keep every child's status in one place |
| `ExecRegistry.StatusOnce` | cmd/sandbox-init/exec.go:98-126 | in every run a session receives its child's status at most once and it is the right one, and no send blocks under the lock |
| `ExecRegistry.StatusArrives` | cmd/sandbox-init/exec.go:98-126 | a reaped and registered child's status can be fetched or has been |
| `ExecRegistry.NoneAdmitted` | cmd/sandbox-init/exec.go:75-83 | nobody is admitted between beginQuiesce and endQuiesce |
| `ExecRegistry.BarrierWaits` | cmd/sandbox-init/exec.go:140-161 | the barrier is closed exactly if at some moment since it was handed out no session was left |
| `ExecRegistry.BarrierMeansQuiet` | cmd/sandbox-init/exec.go:140-167 | until endQuiesce, the barrier handed out is closed exactly while no session is left |
| `Words.OrPageAligned` | pkg/chapi/dirty.go:173 | an or of three words is page aligned exactly when each is |
| `Words.ShrZero` | pkg/chapi/dirty.go:177 | a right shift leaves nothing exactly when no bit from there on is set |
| `Dirty.NeighboursDecide` | pkg/chapi/dirty.go:181-186 | in guest order neighbours are disjoint exactly when all regions are pairwise |
| `Dirty.ChainedTiles` | pkg/chapi/dirty.go:187-197 | regions chained from zero to the end tile RAM |
| `Dirty.TilesChained` | pkg/chapi/dirty.go:187-197 | regions that tile RAM are chained in file order |
| `Dirty.TailDecides` | pkg/chapi/dirty.go:177-179 | the tail test holds exactly when no bit beyond the region's pages is set |
| `Dirty.RegionDecided` | pkg/chapi/dirty.go:173-179 | the tests of one region, free of wrap-around, decide that it is well formed |
| `Dirty.DirtyMemory.CheckRegions` | pkg/chapi/dirty.go:172-180 | true exactly if slots are distinct and every region is well formed |
| `Dirty.DirtyMemory.CheckGuest` | pkg/chapi/dirty.go:181-186 | true exactly if guest ranges are pairwise disjoint; the 64-bit sums it compares do not wrap |
| `Dirty.DirtyMemory.CheckTiling` | pkg/chapi/dirty.go:187-197 | true exactly if file ranges tile RAM; the 64-bit running end does not wrap |
| `Dirty.DirtyMemory.Validate` | pkg/chapi/dirty.go:166-199 | in wrapping 64-bit arithmetic, accepts exactly the descriptions that are well formed over unbounded numbers, in any order of regions, and leaves the regions a permutation of themselves |
| `Dirty.PageHasOneBit` | pkg/chapi/dirty.go:166-199 | every page of RAM has exactly one slot and bit |
| `Journal.FeedAllConcat` | internal/journalio/writer.go:42-79 | framing depends only on the concatenated input |
| `Journal.FramesRebuildInput` | internal/journalio/writer.go:42-124 | frames with their line ends and the buffer rebuild the input, and every frame obeys the rules |
| `Journal.FramingIsCanonical` | internal/journalio/writer.go:42-124 | a list of frames is the framer's exactly if it obeys the rules and rebuilds the input |
| `Journal.DeliveredInOrder` | internal/journalio/writer.go:94-111 | every non-blank frame is sent once, in order, and when its send failed its untrimmed bytes go to the fallback with the prefix and a line feed |
| `Journal.Writer.Write` | internal/journalio/writer.go:42-79 | the buffered writer has framed what feeding its bytes one at a time frames; a closed one takes nothing |
| `Journal.Writer.TakeChunk` | internal/journalio/writer.go:62-76 | consuming up to a line feed, a full buffer or the end agrees with feeding the bytes |
| `Journal.Writer.EndLine` | internal/journalio/writer.go:64-72 | the buffered bytes and the rest of the line become one frame |
| `Journal.Writer.FlushFull` | internal/journalio/writer.go:50-61 | a full buffer becomes a line if a line feed follows and a forced cut otherwise |
| `Journal.Writer.Append` | internal/journalio/writer.go:83-92 | the bytes are buffered and the capacity stays within the longest line |
| `Journal.Writer.Emit` | internal/journalio/writer.go:94-111 | one frame, and its delivery |
| `Journal.Writer.Close` | internal/journalio/writer.go:115-124 | the rest becomes a last frame, once, and the buffer is released |
| `Journal.ClosedRebuilds` | internal/journalio/writer.go:115-124 | with the last, unterminated frame that closing adds, the frames rebuild the input exactly |
| `Journal.WriteInPieces` | internal/journalio/writer.go:42-124 | any way of cutting the input into writes gives the same frames |
| `Netlink.AppendAttr` | cmd/sandbox-init/network.go:168-177 | appends exactly the padded encoding |
| `Netlink.ParseAddrEntry` | cmd/sandbox-init/network.go:375-401 | skips other interfaces, families and scopes; otherwise the pick over the attributes the walk visits, or the out-of-bounds re-slice |
| `Netlink.RoundTrip` | cmd/sandbox-init/network.go:162-177 | walking an encoded list stays in bounds and visits exactly the list |
| `Netlink.ParsedSelection` | cmd/sandbox-init/network.go:384-396 | of an encoded list the last IFA_LOCAL is picked, else the first IFA_ADDRESS |
| `Netlink.LastLocalWins` | cmd/sandbox-init/network.go:392-394 | also with empty values: an empty last IFA_LOCAL hands over to the addresses after it |
| `Netlink.AlignedStaysInBounds` | cmd/sandbox-init/network.go:385-396 | a payload whose length is a multiple of four never leads the walk out of bounds |
| `Netlink.LengthDecides` | cmd/sandbox-init/network.go:385-396 | the lengths at which no payload does are exactly the multiples of four and those under four |

## Left out

- Command lines, HTTP and TLS clients, release scripts, mounts, cgroups, namespaces, ptys and real netlink sockets: plumbing and foreign calls.
- Encryption, digests and the Manifest, Bundle, tarstream and multiplexing formats: used through the contracts listed above.
- Deadlines, lingering and retry windows: a timeout is a choice the environment makes at any time.
- The comparison of whole sandboxes behind a replaced sandbox reference, the root object published last and the snapshot path: every chain goes through the modelled operations.
- Rewrites that skip verification: the caller asserts equivalence, so only their size checks are modelled.
- Canonicalization of the references in rule strings: a function the parser is given.
- Validation of the retained disk description and of the disks' dependencies before a reset: the operation starts after it.
- The run-directory guard, fresh publication, the helper handshake, the pumps and the admission word are transition systems over values, because their steps interleave; the objects' identity in the source's heap is not modelled.
- Symbolic links in the run path, the checks of the PID entry's type and link count, and the PID text written to it.
- The inherited POSIX lock of the launcher that re-executes itself under the same PID.
- Host-to-app input, window sizes and the acknowledged close of the session at shutdown.
- Publish: the bytes written to a fresh file and the retries on an existing one.
- Bundles.Publication.PutFile: creating, writing and validating a file are one step; their own steps are in `publish.dfy`.
- The payload check of the copied Manifests before and after a Bundle publication: it can only turn a success into a failure.
- Bundles.Publication.PutBundle: others create files and remove none; with removals a success could only speak of each file at its own last check.
- Usage.Service.Resume: does not model the 64-bit wrap-around of the generation, which takes 2^64 attempts and pauses.
- Rewrite.Publication.OpenValue: how a reference is parsed, located and forced to be written again is a function it is given.
- Admission.NextKeepsInv: states the word's bit operations as arithmetic on its top bit and low 63 bits.
- Cleanup: the keep and active sets are sets of names; the source's boolean values in them are always true.
- I/O errors between parent and helper other than a closed peer.
