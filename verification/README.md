# A verified model of OTAmpy's update protocol

OTAmpy updates MicroPython boards over a serial or radio link. This project
models its crash-sensitive parts in Dafny and proves what they keep: the
retain-previous commit on flash, the update session and the boot sequence
around it, the host's update conversation, the channel multiplexer, fragmented
responses, the runtime copy session, authenticated commands with their
counters, and directory listings.

`dafny verify dfyconfig.toml` checks everything.

## How failures are modelled

- **Flash** is a map from path to content together with the *power* that is
  left. Every `remove`, `rename`, file write and file append is one atomic step
  and costs one unit; without power nothing changes any more. A procedure run
  with power `k` leaves what a device finds that lost its supply after `k`
  steps, and `Reboot` gives the next boot a fresh supply. Claims for every
  power, or for every sequence of powers, are claims about every crash point.
- **`rename`** is strict: it fails when its destination exists. `clashes` counts
  such attempts, so `clashes` unchanged means that no overwriting rename is ever
  needed. `bad` names rename attempts that the medium refuses.
- **Runs** are sequences of events, each with the power that it finds: boots with
  whatever their window and their update session receive, update requests,
  confirmations, rollbacks, recoveries, polls and queries. `Boot.Run` is proved to be
  such a step for every input, and a *quiet* session is one without UPDATE_START and
  UPDATE_COMMIT.
- **The procedures** are methods that change a file system step by step. Each is
  proved to compute a function on disks (`Commit` computes `Committed`, `Repair`
  computes `Repaired`, and so on); the crash theorems are about those functions.
- **The platform and the libraries** (base64 decoder, SHA-256, UTF-8, the COBS
  code, clocks, free space, the answers of a flaky link) are parameters with
  stated laws.

## The parts

| files | what they hold |
|---|---|
| `Text`, `Names`, `Paths` | Python's text operations, file names, path spelling |
| `Disk`, `Journal`, `Restore` | flash, the journal's format, `restore.py` as methods and as functions |
| `Healing`, `Atomicity`, `CrashSafety` | restores that can be rerun, crash atomicity of `commit` |
| `ExactUndo`, `Limits`, `Survivors` | refused renames, and where the protocol's promises end |
| `Sweep`, `Window`, `Session`, `Packets`, `Digests` | the orphan sweep, the recovery window with its gate, the update session, what a session leaves judged by its packets, what FILE_END lets through |
| `Clearing`, `Runs`, `Generations`, `Trials`, `Freshness` | clearing the journal, runs of events, the retained generation, the bounded trial, why every commit starts clean |
| `Base64`, `Host`, `Conversation`, `Delivery`, `Outages`, `Update` | the host's messages, the whole conversation, power failures in any session |
| `Room`, `Boot`, `Marker`, `Flag` | the boot sequence, the boot marker and the update flag as histories of a run |
| `Frames`, `Cuts`, `Ports`, `Mux` | deframing, when the cuts between reads matter, bounded buffers, both ends of the shared line |
| `Fragments`, `Listing` | large responses, LS and CAT |
| `FileCopy` | the runtime copy session |
| `Auth`, `Counters`, `Commands` | the MAC, the envelope, counters across restarts, the runtime commands that reset the board |

## What the proofs found

Where the code keeps less than one might expect, the code is modelled as it is
and the exact condition is proved.

- A leftover `.bck` is never looked at before the first journal write, so a cut
  right after that write restores it. `commit` is atomic in content exactly when
  no existing target has a leftover copy with other content
  (`AtomicIffLeftoversHarmless`). UPDATE_START establishes that: over any run, updates
  included, every retained copy stays journalled (`RunKeepsJournalled`), so that a
  well-formed UPDATE_START leaves none (`EveryStartCleans`) and every update is whole
  or not at all (`EveryUpdateIsWhole`). The device does not insist on it: a commit
  that was not announced leaves copies outside the journal exactly when some copy
  belongs to no new target and is not deleted (`UnannouncedJournalledIff`).
- `docs/architecture.md` says that at most one of `boot.py` and `main.py` is ever
  absent. That holds of `commit` (`CommitLosesAtMostOne`). The restore that
  answers an interrupted commit removes before it renames: cut there, two
  targets are missing exactly when a target listed before the missing one
  existed (`RestoreLosesTwoIff`, `RepairAfterCutLosesTwoIff`). So two power cuts, one
  in the commit and one in the repair, can take two programs away exactly when at
  least two of the new set's targets existed (`TwoCutsLoseTwoIff`).
- `restore_all` drops the journal even when one of its renames was refused; it
  restores the whole generation exactly when every retained copy has an attempt that
  the medium does not refuse (`RestoreWholeIff`), which for a journal that names no
  target twice means that none of the next attempts is refused
  (`RestoreWholeIffNoneRefused`); the next sweep deletes the only copy of every target
  that is left over (`RefusedRestoreLosesTargets`). A rollback may
  then answer 0, "nothing to roll back", although files are gone: 0 means unchanged
  exactly when no journalled copy was there (`ZeroUnchangedIff`).
- A finished repair can leave the marker of an interrupted commit standing exactly when
  nothing was staged (`MarkerLeftIffNothingStaged`). No boot, rollback or confirmation
  takes it away, and both commands are refused, until the next UPDATE_START (`MarkerStays`).
- The trial can end an interrupted rollback only while it runs: on an unconfirmed
  journal boots alone finish it (`TrialFinishesRollback`), on a confirmed one no run
  without another rollback does (`ConfirmedFreezes`, `RollbackAgainFinishes`).
- `_canonical` does not collapse `/././` (`CanonicalIsNotNormal`); a retained copy
  survives the sweep exactly when some journalled spelling has its canonical
  form (`RetainedSurvivesIff`).
- An over-long frame is given up in the middle, and the cut between reads can decide
  whether its end is heard as a frame (`OverlongTailIsHeard`). The cuts do not matter
  exactly when no such end is a frame (`CutsIffTame`).
- The copy session's fallback without `os.replace` keeps the old target after a
  failure exactly when the medium does not refuse both the second rename and the
  one that undoes the first (`FailedFallback`); that is the only way in which files
  and answers can come apart (`HandledAgreesIff`).
- The device refuses no genuine counter exactly when its floor is not above the host's
  counter file (`NoneMissedIff`).
- The session loop does not insist on FILE_END. Where every FILE_START is closed by one,
  nothing but content with a declared digest gets into the firmware, whatever else
  arrives and wherever the power fails (`OnlyDeclaredArrives`).
- Until the next new counter arrives, a device that lost its power accepts again
  exactly the counters above its floor (`RepeatAfterPowerLoss`).
- The gate accepts counters of any size, but a floor file beyond 32 bits reads as 0:
  what was accepted before a commanded reset is refused after it exactly when the
  guard's counter fits 32 bits (`ResetRefusesThePast`). The host never issues more.

## Model

| member | source | states |
|---|---|---|
| `CrashSafety.CommitIsAtomic` | src/otampy/device/lib/otampy/restore.py:133-243 | cut `commit` after any number of steps, then any number of repairs anywhere: the next complete repair leaves the whole new generation on trial with every old content retained, or the whole old one with no copy and no journal; no rename met an existing file |
| `CrashSafety.AtomicIffLeftoversHarmless` | src/otampy/device/lib/otampy/restore.py:147-171 | old content is kept for every crash if and only if no existing target has a leftover `.bck` with other content |
| `Atomicity.CommitCut` | src/otampy/device/lib/otampy/restore.py:133-181 | with any power, `commit` leaves the disk untouched, a committing journal with each target old, moved aside or new, or the complete new generation; with power to spare it reports success and is complete |
| `Atomicity.CommitDeletes` | src/otampy/device/lib/otampy/restore.py:133-181 | once the trial has begun none of the deleted paths and no copy of one is left |
| `Digests.CommitBrings` | src/otampy/device/lib/otampy/restore.py:133-181 | wherever it is cut, `commit` puts nothing under a firmware name but the old content or what was staged for it |
| `ExactUndo.RefusedRenameIsUndone` | src/otampy/device/lib/otampy/restore.py:149-171 | when the medium refuses any one rename, `commit` returns False and every target is as before, present or absent, with no copy left; only staging files and the journal differ |
| `ExactUndo.UndoneAll` | src/otampy/device/lib/otampy/restore.py:344-355 | `_rollback` takes back exactly the recorded moves, touches nothing else, and renames onto no existing file |
| `ExactUndo.RepairAfterUndo` | src/otampy/device/lib/otampy/restore.py:214-228 | the repair after a failed commit removes the journal and nothing else |
| `Healing.RestoreIsReentrant` | src/otampy/device/lib/otampy/restore.py:184-211 | `restore_all` interrupted anywhere, any number of times, and then finished ends on the disk of one uninterrupted run, without a clashing rename |
| `Healing.RestoreOutcome` | src/otampy/device/lib/otampy/restore.py:184-211 | a restore cut short still has its journal and the generation behind it; a finished one has put every retained copy in place and removed the journal |
| `Healing.RestoreIsBounded` | src/otampy/device/lib/otampy/restore.py:184-190 | a restore takes at most two steps for each journalled path and one for the journal |
| `Survivors.CommitLosesAtMostOne` | docs/architecture.md:226-231 | cut anywhere, `commit` has at most one absent target among those that existed |
| `Survivors.RestoreLosesTwoIff` | src/otampy/device/lib/otampy/restore.py:194-206 | some cut of a restore leaves two targets missing if and only if a running target precedes a missing one in the journal |
| `Survivors.RepairAfterCutLosesTwoIff` | docs/architecture.md:226-231 | after a commit cut at an absent target, the repair can lose a second one if and only if a target listed before it existed |
| `Survivors.CutReaches` | src/otampy/device/lib/otampy/restore.py:149-171 | every existing target of a complete set is absent after some cut of the commit |
| `Survivors.TwoCutsLoseTwoIff` | docs/architecture.md:226-231 | a cut of the commit followed by a cut of the repair can leave two targets absent if and only if two of the set's targets existed |
| `Limits.RestoreWholeIff` | src/otampy/device/lib/otampy/restore.py:200-211 | a finished restore brings the whole generation back if and only if each copy that the journal names, once or more often, meets an attempt that the medium does not refuse |
| `Limits.RestoreWholeIffNoneRefused` | src/otampy/device/lib/otampy/restore.py:200-211 | for a journal that names no target twice: if and only if the medium refuses none of the next rename attempts, as many as the disk holds journalled copies |
| `Limits.RefusedRestoreLosesTargets` | src/otampy/device/lib/otampy/restore.py:207-211 | the next finished sweep deletes the only copy of every target whose attempts were all refused |
| `Limits.ZeroUnchangedIff` | src/otampy/device/lib/otampy/restore.py:263-284 | a rollback answered 0 has left the files unchanged if and only if no journalled copy was there or no power was left |
| `Limits.MarkerLeftIffNothingStaged` | src/otampy/device/lib/otampy/restore.py:223-226 | some cut of commit and repairs leaves a committing marker behind a finished repair if and only if nothing was staged |
| `Limits.MarkerStays` | src/otampy/device/lib/otampy/restore.py:223-326 | over any run without another update such a marker stays, the state reads as on trial, confirm and rollback are refused, and the clearing that an UPDATE_START makes removes it |
| `Limits.UnannouncedJournalledIff` | src/otampy/device/lib/otampy/restore.py:133-181 | a finished commit leaves every copy in the tree journalled if and only if each copy that was there belongs to a new target or is deleted |
| `Journals.JournalRoundTrip` | src/otampy/device/lib/otampy/restore.py:66-108 | reading a written journal gives back state, attempt and paths, for every state, every integer and all one-line paths |
| `Journals.JournalFailsSafe` | src/otampy/device/lib/otampy/restore.py:66-94 | every text is a journal: confirmed exactly when its first line is empty or says so, on trial exactly when it is a numeral, committing otherwise; the other non-empty lines are the paths |
| `Restore.ClearJournal` | src/otampy/device/lib/otampy/restore.py:111-122 | removes each journalled copy in order, then the journal |
| `Restore.Commit` | src/otampy/device/lib/otampy/restore.py:133-181 | changes the disk as `Committed` says and reports success accordingly |
| `Restore.Undo` | src/otampy/device/lib/otampy/restore.py:344-355 | changes the disk as `Undone` says |
| `Restore.RestoreAll` | src/otampy/device/lib/otampy/restore.py:184-211 | changes the disk as `RestoredAll` says and counts the targets that came back |
| `Restore.Repair` | src/otampy/device/lib/otampy/restore.py:214-243 | changes the disk as `Repaired` says: rewrites the journal only if something was restored |
| `Restore.Confirm` | src/otampy/device/lib/otampy/restore.py:246-260 | takes a candidate off trial, keeps the path list, and refuses exactly while a commit is marked |
| `Restore.RollbackResult` | src/otampy/device/lib/otampy/restore.py:263-299 | busy, nothing to do, or restored with the count, and the disk of each case |
| `Restore.TrialBoot` | src/otampy/device/lib/otampy/restore.py:302-326 | counts a boot, or past the limit restores and asks for a reset |
| `Clearing.ClearJournalCleans` | src/otampy/device/lib/otampy/restore.py:111-122 | on a tree whose copies are all journalled, a finished `clear_journal` leaves no copy and no journal anywhere; cut anywhere, it touches nothing else |
| `Freshness.RunStaysProper` | src/otampy/device/lib/otampy/restore.py:81-108 | over any run under usable names, updates included, whatever the packets and the cuts, the journal names usable targets and no file of the device's own |
| `Freshness.RunKeepsJournalled` | src/otampy/device/lib/otampy/restore.py:111-326 | over any such run whose sessions announce what they commit, every retained copy in the tree stays journalled |
| `Clearing.CommitKeepsJournalled` | src/otampy/device/lib/otampy/restore.py:133-181 | a commit from a clean tree, cut anywhere, leaves every retained copy journalled |
| `Runs.MendingHeals` | src/otampy/device/lib/otampy/restore.py:229-243 | with the power to finish, the repair of a trial brings back every missing target that has a copy and leaves the others alone, and rewrites the journal exactly if something came back |
| `Runs.RunKeepsRecoverable` | src/otampy/device/lib/otampy/restore.py:184-326 | over any run without another update, with flagged boots, windows and quiet sessions, each cut anywhere and rollbacks included, every old content is in its target or in its journalled copy, and no rename clashes |
| `Runs.RunAfterCutCommit` | src/otampy/device/lib/otampy/restore.py:133-243 | the same for runs that begin with a commit cut anywhere |
| `Generations.RunHoldsGeneration` | src/otampy/device/lib/otampy/restore.py:214-326 | over any run without another update or a rollback, with flagged boots and sessions, the candidate stays in place and every old content in its `.bck`; only the boots before the first confirmation have to keep within the trial limit |
| `Generations.RollbackAfterAnyRun` | src/otampy/device/lib/otampy/restore.py:263-299 | commit, any such run, confirmed or not, rollback: exactly the old bytes of every target that existed come back and are counted, and a second rollback returns 0 and changes nothing |
| `Trials.OneTrialBoot` | src/otampy/device/lib/otampy/restore.py:313-326 | a boot within the limit adds one to the counter, restores nothing and changes no other file |
| `Trials.TrialRunCounts` | src/otampy/device/lib/otampy/restore.py:302-326 | over any run without update, rollback or confirmation, whatever its boots receive and wherever they are cut, the counter grows by exactly the powered boots, and up to the limit candidate and old generation are held |
| `Trials.TrialIsBounded` | src/otampy/device/lib/otampy/restore.py:302-326 | after any such run that used the limit up, the next whole boot restores the old generation and resets; in any later run without an update it stays back, and no boot resets for the trial |
| `Trials.NoTrialWithoutJournal` | src/otampy/device/lib/otampy/restore.py:302-314 | without a journal no run without an update makes one, and none of its boots is reset by the trial |
| `Trials.TrialFinishesRollback` | src/otampy/device/lib/otampy/restore.py:302-326 | on trial, an interrupted rollback is finished by any run of events without update or confirmation, however cut, once enough of its boots outlast `trial` |
| `Trials.ConfirmedFreezes` | src/otampy/device/lib/otampy/restore.py:224-314 | on a confirmed journal no run without update and rollback, whatever its boots, windows, sessions and sweeps do, touches journal, targets or retained copies, and no boot is reset by the trial |
| `Trials.RollbackAgainFinishes` | src/otampy/device/lib/otampy/restore.py:263-284 | asking again finishes an interrupted rollback |
| `Trials.StateIsHonest` | src/otampy/device/lib/otampy/restore.py:329-341 | asked over the link after any such run, UPDATE_STATE names the number of powered boots of the trial, or reports stable once the candidate is confirmed |
| `Trials.WindowRollsBack` | src/otampy/device/lib/otampy/boot.py:478-506 | a ROLLBACK that the window hears in time, with a copy to restore and the power for it, brings the old generation back, whatever packets surround it |
| `Sweep.SweepOrphans` | src/otampy/device/lib/otampy/boot.py:548-585 | over any directory tree the recursive sweep ends; cut anywhere it has removed orphans only, finished it has removed all of them |
| `Sweep.SweepExact` | src/otampy/device/lib/otampy/boot.py:570-583 | after a finished sweep a file is left exactly when it is no orphan, with its content |
| `Sweep.RetainedSurvives` | src/otampy/device/lib/otampy/boot.py:534-558 | however a journalled copy is spelled (`/x`, `./x`, `/./x`, `x`), no sweep removes it |
| `Sweep.RetainedSurvivesIff` | src/otampy/device/lib/otampy/boot.py:548-581 | a retained copy survives if and only if its spelling is the canonical form of some journalled copy |
| `Paths.CanonicalSpellings` | src/otampy/device/lib/otampy/boot.py:534-545 | the four spellings of one file have the same canonical form |
| `Paths.CanonicalIsNotNormal` | src/otampy/device/lib/otampy/boot.py:534-545 | `/././m.bck` is the file `/m.bck` but has another canonical form |
| `Paths.ResolveMeans` | src/otampy/device/lib/otampy/core.py:50-60 | a path of the host becomes absolute on MicroPython and stays as it is elsewhere; it names the same file |
| `Freshness.SweepJournals` | src/otampy/device/lib/otampy/boot.py:548-585 | after a finished sweep every retained copy in the tree is journalled, whatever was there before |
| `Boot.CompleteBootJournals` | src/otampy/device/lib/otampy/boot.py:588-719 | whatever was in the tree before, a complete boot without a session leaves every retained copy journalled |
| `Session.UpdateSession.Run` | src/otampy/device/lib/otampy/boot.py:100-399 | serving any packets in any order, well formed or not: the disk is the one that the packets up to the end determine; unless the session ends in a commit no firmware file changes, without UPDATE_START and UPDATE_COMMIT journal and journalled copies stay too, and an aborted or timed-out session leaves no `.ota` file in the tree |
| `Session.QuietSession` | src/otampy/device/lib/otampy/boot.py:129-399 | without UPDATE_START and UPDATE_COMMIT a session, however it ends, changes staging files and removes unjournalled copies, and nothing else |
| `Session.SessionWaitsIff` | src/otampy/device/lib/otampy/boot.py:129-195 | a session waits on exactly while it was not silent for its timeout and got no readable UPDATE_ABORT or UPDATE_COMMIT; what is blank or broken UTF-8 changes nothing |
| `Digests.FileIsChecked` | src/otampy/device/lib/otampy/boot.py:243-342 | after an accepted FILE_START and any chunks, FILE_END answers FILE_OK if and only if the acknowledged bytes have the declared digest; then they are staged and listed, otherwise file and pair are gone |
| `Digests.OnlyDeclaredArrives` | src/otampy/device/lib/otampy/boot.py:129-399 | a session whose every FILE_START is closed, whatever else arrives and wherever it is cut: a firmware file holds its old content or one whose digest was declared for it |
| `Digests.AnswersNeedAFile` | src/otampy/device/lib/otampy/boot.py:285-342 | no chunk is acknowledged and no file accepted but between a FILE_START and its FILE_END |
| `Packets.SessionKeeps` | src/otampy/device/lib/otampy/boot.py:171-399 | any session under usable names, cut anywhere: the marker stays, the journal is gone, the old one or names targets of the session, and after an announced commit every copy is journalled |
| `Session.ServedKeeps` | src/otampy/device/lib/otampy/boot.py:197-342 | each packet but ABORT and COMMIT changes staging files only, apart from UPDATE_START, which may drop the journal and the copies it names |
| `Session.UpdateStartCleans` | src/otampy/device/lib/otampy/boot.py:197-226 | an answered UPDATE_START leaves no retained copy and no journal |
| `Session.UpdateSession.Receive` | src/otampy/device/lib/otampy/boot.py:171-399 | trimming, the UTF-8 check and the dispatch of one packet, with reply, variables and disk of each case |
| `Session.UpdateSession.FileStart` | src/otampy/device/lib/otampy/boot.py:243-283 | opens an empty staging file and remembers target, digest and pair, or reports the error and changes nothing |
| `Session.UpdateSession.Chunk` | src/otampy/device/lib/otampy/boot.py:285-311 | appends the decoded bytes to the open file and to the digest, or reports the error and changes nothing |
| `Session.UpdateSession.FileEnd` | src/otampy/device/lib/otampy/boot.py:313-342 | accepts the file if its digest is the declared one, otherwise removes it and its pair |
| `Session.UpdateSession.UpdateCommit` | src/otampy/device/lib/otampy/boot.py:356-399 | places the RTC helper by a plain rename, commits the rest; with power left the update flag is gone |
| `Session.HelperIff` | src/otampy/device/lib/otampy/boot.py:361-372 | the one-shot helper is known by its file name, in whatever directory |
| `Base64.RoundTrip` | src/otampy/cli.py:2799-2806 | decoding a base64 encoding (section 4 of RFC 4648) gives the bytes back |
| `Base64.ChunkFitsOneFrame` | src/otampy/cli.py:34-38 | a CHUNK message of at most 132 bytes and a sequence number of at most ten digits has at most 194 bytes |
| `Host.StandardDecoderIsFaithful` | src/otampy/device/lib/otampy/boot.py:296-299 | the standard's decoder keeps the promise that the conversation theorems ask of `a2b_base64` |
| `Conversation.SendFile` | src/otampy/cli.py:2780-2825 | a file accepted by the device is staged with exactly the host's bytes, for every size and chunk size, and nothing else changed; where the platform reports no error and no file stands in the way it is accepted, at one flash step and one for each chunk |
| `Delivery.FinishedDelivers` | src/otampy/device/lib/otampy/boot.py:356-399 | UPDATE_COMMIT after a complete transfer: if the power outlasts `commit`, the answer is COMMIT_OK and every file but the helper holds the staged bytes, its old content is retained and the trial stands at zero, wherever the power goes after that |
| `Delivery.FinishedFinishes` | src/otampy/device/lib/otampy/boot.py:356-394 | and then the helper is in place with its staged bytes, the deleted paths with their copies are gone, and so is the flag |
| `Delivery.RefusedCommitSaysSo` | src/otampy/device/lib/otampy/boot.py:381-384 | a commit in which the medium refuses a rename answers COMMIT_ERR and leaves every target as it found it |
| `Update.UpdateFiles` | src/otampy/cli.py:2751-2873 | COMMIT_OK, received while the device still has power, means that the whole manifest is installed, helper and deletions included, whatever becomes of the flag after it; a failure before the commit message leaves the firmware untouched and no `.ota` file; however the power failed on the way and in the repairs after it, the next complete repair finds the new files or the old ones; every retained copy is journalled again, as the next update needs; and with space, power for the stated steps, names that no file blocks and no error of the platform the update succeeds |
| `Update.CommitLasts` | src/otampy/device/lib/otampy/restore.py:133-181 | a commit needs at most three steps for each file, two for each deletion and two for the journal |
| `Outages.FinishedSurvives` | src/otampy/device/lib/otampy/boot.py:356-399 | UPDATE_COMMIT cut anywhere, helper and flag included, then interrupted repairs: the staged set whole, or every named target with its old content |
| `Outages.SessionSurvives` | src/otampy/device/lib/otampy/boot.py:129-399 | the same for any packets of any session that announces what it commits |
| `Outages.EveryUpdateIsWhole` | src/otampy/device/lib/otampy/boot.py:588-719 | the same after any run of events and announced updates |
| `Outages.EveryStartCleans` | src/otampy/device/lib/otampy/boot.py:197-226 | after any such run a well-formed UPDATE_START that the power outlasts leaves no retained copy and no journal, until the commit |
| `Outages.BootHandsOver` | src/otampy/device/lib/otampy/boot.py:596-620 | a boot that gets past its trial hands the session a disk on which a repair has nothing to do and every copy is journalled |
| `Outages.AnyRunHandsOver` | src/otampy/device/lib/otampy/boot.py:596-620 | after any run under usable names with announced updates the next boot that gets past its trial hands over such a disk |
| `Boot.Run` | src/otampy/device/lib/otampy/boot.py:588-719 | one whole boot, whatever arrives: a step of the run theorems, how it ended, and the floor written exactly before a reset from the window |
| `Window.Listen` | src/otampy/device/lib/otampy/boot.py:417-531 | the window passes each packet through the UTF-8 check and the gate, serves UPDATE_REQUEST and ROLLBACK, refuses the rest, closes at its absolute deadline, gives all its replies in order, and writes the replay floor before a reset |
| `Window.AdmittedIff` | src/otampy/device/lib/otampy/boot.py:451-476 | the window hears exactly the packets that are neither blank nor broken UTF-8 and, with authentication on, are genuine; only those move the guard |
| `Window.DeadlineIsAbsolute` | src/otampy/device/lib/otampy/boot.py:441-456 | rounds before the deadline are served one after the other, the first one at or after it closes the window |
| `Window.OneAnswerEach` | src/otampy/device/lib/otampy/boot.py:478-531 | every packet that is heard gets one answer, and only an update request or a rollback that restored something resets the board |
| `Boot.OtaFacade.MarkApplicationAlive` | src/otampy/device/lib/otampy/ota.py:128-164 | removes the marker at the first call of a process only |
| `Boot.OtaFacade.Recover` | src/otampy/device/lib/otampy/ota.py:65-89 | repairs, then removes the flag: with power left it is gone |
| `Room.MarkedIsRoomy` | src/otampy/device/lib/otampy/boot.py:596-644 | what a boot renames and writes up to its marker keeps the file system a tree |
| `Marker.MarkIsHistory` | src/otampy/device/lib/otampy/boot.py:618-644 | over any run under usable names, update sessions and requests included, cut anywhere, the marker is there exactly when the last boot that got past its trial was not followed by a poll |
| `Marker.WideWhenAtRisk` | src/otampy/device/lib/otampy/boot.py:661-685 | after any such run a boot without the flag opens the wide window exactly when the device was left stranded or an unconfirmed candidate is journalled |
| `Marker.StrandedWritesOnce` | src/otampy/device/lib/otampy/boot.py:629-644 | any number of boots without a poll write the marker once at most, and never while it is there |
| `Flag.FlagIsHistory` | src/otampy/device/lib/otampy/boot.py:588-719 | over any run under usable names, cut anywhere, the update flag is there exactly when an update was asked for with the power to note it and no session since was over, and no recovery made, with the power to remove it |
| `Flag.ListenedFlag` | src/otampy/device/lib/otampy/boot.py:478-486 | a window leaves the flag exactly when it was there or an UPDATE_REQUEST was heard in time and with power |
| `Flag.FinishedUnflags` | src/otampy/device/lib/otampy/boot.py:386-394 | a commit that comes to its answer, and a repair that recovery comes to the end of, are followed by the removal of the flag |
| `Frames.EveryFrameOnce` | src/otampy/channel.py:66-102 | after any bytes ending in a delimiter every frame sent is delivered once, in order, nothing added or counted as dropped, for all cuts into reads |
| `Frames.EveryPieceCounts` | src/otampy/channel.py:70-102 | every piece that is not empty is one frame of the two channels, is counted as dropped, or is a frame of another channel, and only the two channels get frames |
| `Frames.Resynchronises` | src/otampy/channel.py:74-81 | nothing before a delimiter influences what is made of the pieces after it, even undecodable ones |
| `Frames.OverlongTailIsHeard` | src/otampy/channel.py:100-102 | an over-long run of bytes in front of a frame: heard or not, depending on the cut |
| `Cuts.CutsIffTame` | src/otampy/channel.py:70-102 | all cuts into reads deliver the frames of the pieces if and only if no end of a piece beyond the length limit is itself a frame |
| `Mux.ChannelCodec.TakeFrames` | src/otampy/channel.py:70-102 | yields the frames of the buffer, keeps the rest, counts the dropped ones |
| `Mux.ChannelSerial.Read` | src/otampy/channel.py:152-175 | returns and removes the first bytes of the last 2048 decoded ones |
| `Mux.SerialMux.Service` | src/otampy/device/lib/otampy/mux.py:175-214 | routes the same frames as the host's codec: the port holds the last bytes of channel 0, the mailbox the newest payload, and every counter is exact |
| `Mux.VirtualPort.Feed` | src/otampy/device/lib/otampy/mux.py:77-86 | keeps the last bytes and counts exactly the others |
| `Mux.VirtualPort.FrameReady` | src/otampy/device/lib/otampy/mux.py:108-112 | true exactly when two delimiters are buffered |
| `Ports.PortIsStream` | src/otampy/device/lib/otampy/mux.py:77-102 | over any run of feeds and reads the bounded port is a stream of which at most the last bytes are unread, and its counter is exactly what was skipped |
| `Ports.LastOfLast` | src/otampy/channel.py:164-167 | trimming for each frame, as the device does, and once per pump, as the host does, leave the same buffer |
| `Ports.AppConserved` | src/otampy/device/lib/otampy/mux.py:169-214 | application payloads routed are those returned, dropped and pending |
| `Mux.ByteStream` | src/otampy/channel.py:152-175 | whatever was on the line before the last delimiter, the bytes of channel 0 sent after it come out complete and in order however the stream is cut, unless the buffer overflowed |
| `Fragments.Transport.SendResponse` | src/otampy/device/lib/otampy/manager.py:79-184 | what a response puts on the link, for all parts, sizes and failures of the link |
| `Fragments.FragmentsAreTheResponse` | src/otampy/device/lib/otampy/manager.py:111-184 | the fragments' data is the concatenation of the parts; numbered from 0, each announcing their exact number, full but the last, header values in a byte, one heartbeat each |
| `Fragments.FailureEndsTheMessage` | src/otampy/device/lib/otampy/manager.py:139-153 | with k sends accepted and the next refused, the fragments 0 to k have gone out once each and in order, and behind the last there is the abort and the error reply alone, or nothing if the peer began a new session |
| `Fragments.ResponseArrives` | src/otampy/device/lib/otampy/manager.py:79-184 | what the host assembles is the whole response, in one reply or in fragments; one beyond the largest size is refused with one reply, and no fragment goes out |
| `Listing.DirectorySize` | src/otampy/device/lib/otampy/manager.py:225-236 | the announced size is the length of the listing that is sent |
| `Listing.DirectoryParts` | src/otampy/device/lib/otampy/manager.py:239-247 | the parts join to the listing |
| `Listing.FileParts` | src/otampy/device/lib/otampy/manager.py:187-196 | the parts of CAT join to the first `size` bytes of the file |
| `Listing.ListingRoundTrip` | src/otampy/cli.py:1702-1715 | the host recovers names and kinds if and only if no entry has a comma, an outer blank or a final slash in its name |
| `FileCopy.RunAgrees` | src/otampy/device/lib/otampy/filecopy.py:74-197 | over any copy commands in any order and with any failure a file changes only at a CP_END answered CP_OK, then holding exactly the acknowledged chunks with the declared length and digest; acknowledgements count 0, 1, 2 and stay within the declared size; no commit may fail beyond repair on the way |
| `FileCopy.HandledAgreesIff` | src/otampy/device/lib/otampy/filecopy.py:45-71 | files and answers still agree after a command if and only if it does not commit, on a platform without `os.replace`, to a medium that takes the old target aside and then refuses the new file and the way back |
| `FileCopy.CopySucceeds` | src/otampy/cli.py:2331-2366 | the host's copy of any content in any pieces to an allowed name, with nothing refused and power enough, ends in CP_OK with the target holding it and no working file |
| `FileCopy.EndedLeavesNothing` | src/otampy/device/lib/otampy/filecopy.py:20-43 | a copy that ends, however it ends, leaves no staging file, and after CP_OK no backup |
| `FileCopy.BegunIsAllowed` | src/otampy/device/lib/otampy/filecopy.py:74-122 | a copy is begun only for an allowed name, a digest of 64 characters and a size that there is room for |
| `FileCopy.ForbiddenStays` | src/otampy/device/lib/otampy/filecopy.py:74-197 | over any commands, failures and power cuts a file that may not be copied to never changes |
| `FileCopy.CopySession.Handle` | src/otampy/device/lib/otampy/filecopy.py:185-197 | reply, state and disk of each command |
| `FileCopy.CutFallback` | src/otampy/device/lib/otampy/filecopy.py:45-71 | a power cut in the renames leaves the old target, the new one, or the old content under `.bak` |
| `FileCopy.FailedFallback` | src/otampy/device/lib/otampy/filecopy.py:56-65 | a failed fallback keeps the old target if and only if the undoing rename was not refused too |
| `Auth.DeriveKeyBlocks` | src/otampy/device/lib/otampy/auth.py:66-78 | the cached blocks give HMAC as section 2 of RFC 2104 defines it |
| `Auth.Tag` | src/otampy/device/lib/otampy/auth.py:81-94 | two hashes fed in pieces give the leftmost bytes of the HMAC, section 5 of RFC 2104 |
| `Auth.Verify` | src/otampy/device/lib/otampy/auth.py:97-110 | the OR-of-XOR loop accepts exactly the right tag |
| `Auth.SigningIsUnambiguous` | src/otampy/auth.py:46-52 | the signed bytes determine counter and command |
| `Auth.WrapThenAuthenticate` | src/otampy/device/lib/otampy/authgate.py:57-104 | the gate gives back exactly the command that was wrapped, colons included, if and only if its counter is new |
| `Auth.GateIsExact` | src/otampy/device/lib/otampy/authgate.py:57-104 | for every text, the gate accepts a command if and only if the text has the four fields, with the first eight bytes of the HMAC over counter and command and a new counter; it answers a replay to such texts with an old counter and "unauthenticated" to all others |
| `Auth.KeyIff` | src/otampy/device/lib/otampy/auth.py:47-63 | a configured key is usable exactly when it is 32 bytes in hexadecimal, in either case, with blanks around it allowed |
| `Auth.HexRoundTrip` | src/otampy/auth.py:187-187 | unhexlify undoes hexlify |
| `Auth.UnhexlifyIff` | src/otampy/device/lib/otampy/authgate.py:80-84 | unhexlify takes exactly the digits of the bytes, in either case |
| `Counters.CommandSigner.Wrap` | src/otampy/auth.py:157-194 | a packet leaves with the counter that was issued, and only if one was |
| `Counters.IssuedIsNew` | src/otampy/auth.py:157-184 | an issued counter is already on file, above every one asked for before, not below the clock and within 32 bits; asking uses a counter up even if it could not be put on file |
| `Counters.AuthGate.Authenticate` | src/otampy/device/lib/otampy/authgate.py:57-104 | accepts exactly the genuine packets; one that is not neither passes nor moves the guard |
| `Counters.AuthGate.PersistFloor` | src/otampy/device/lib/otampy/replay.py:73-89 | the floor holds the guard's counter, a beginning of it after a failed write, or what it held if it cannot be opened |
| `Counters.FloorAfterWrite` | src/otampy/device/lib/otampy/replay.py:73-89 | a complete write reads as the guard's counter, a torn one is a beginning of its numeral and reads as no more |
| `Counters.LoadedIff` | src/otampy/device/lib/otampy/replay.py:35-51 | a floor file reads as a number of 32 bits exactly when it spells it, and as 0 otherwise |
| `Counters.RunKeepsOrder` | src/otampy/device/lib/otampy/replay.py:60-89 | over any run of restarts, clocks, losses, repeats and resets the counters sent strictly increase, no delivered one is refused, and none is accepted twice within an uptime or across a commanded reset whose floor was written |
| `Counters.NoneMissedIff` | src/otampy/device/lib/otampy/replay.py:4-25 | started from any two files, no run ever refuses a genuine counter if and only if the device's floor is not above the host's |
| `Counters.OfferedIsAuthenticated` | src/otampy/device/lib/otampy/authgate.py:92-104 | a counter is accepted in the run model exactly when the gate lets its packet through |
| `Counters.RepeatAfterPowerLoss` | src/otampy/device/lib/otampy/replay.py:21-26 | after a power loss exactly the counters above the floor would pass again, until the next new counter closes the past |
| `Commands.Runtime.Poll` | src/otampy/device/lib/otampy/manager.py:278-357 | a text that is not genuine changes neither disk nor guard and resets nothing; of the modelled commands, reply, disk and reset; every commanded reset writes the guard's counter to the floor file |
| `Commands.CommandsAreEvents` | src/otampy/device/lib/otampy/manager.py:278-357 | each modelled command is an event of the run theorems, and resets the board if it is RB, SR or UPDATE_REQUEST or a ROLLBACK answered OK, and otherwise never |
| `Commands.AnswersAreHonest` | src/otampy/device/lib/otampy/manager.py:278-357 | CONFIRM_OK is answered exactly when no commit is marked, and then the candidate is off its trial; ROLLBACK says whether a commit stands in its way |
| `Commands.ResetRefusesThePast` | src/otampy/device/lib/otampy/replay.py:35-51 | after a commanded reset with its floor written, what the guard had accepted is refused if and only if the guard's counter fits 32 bits |
| `Commands.ResetIsNotRepeated` | src/otampy/device/lib/otampy/replay.py:14-19 | a command with a 32-bit counter that reset the board is refused when it is sent again |
| `Text.ParseIntText` | src/otampy/device/lib/otampy/restore.py:91-94 | `int(str(n))` is `n` for every integer |
| `Text.ParseIntIff` | src/otampy/device/lib/otampy/restore.py:91-94 | `int(s)` is `n` if and only if `s` spells it: blanks, a sign, zeros, the numeral |
| `Text.SplitMaxJoins` | src/otampy/device/lib/otampy/authgate.py:68-74 | the fields of a limited split joined again give the text, and only the last may hold a separator |

## Left out

- Targets that did not exist before a commit have no copy: `restore_all` leaves them in place, and the claims about old content are about targets that existed. Paths of DELETE are never backed up; the theorems assume that they are none of the targets.
- A failing journal write: `commit` ignores `write_journal`'s result, and a write that reaches flash is one atomic step, so full or read-only flash is not modelled.
- Names are usable: no target ends in `.bck` or `.ota`, the journal, the marker and the flag are none of them, and paths have one line. Targets and deleted paths have absolute spelling, as on MicroPython, and no target lies above or below another, a file of the device's own or a file on the disk; `Packets.Usable` asks for that of a session's packets, and in the theorems about `commit` alone, where names are keys of a flat map, it is meant in the same way. The configured journal, marker and flag names are the files that they locate.
- Directories without files: a directory is what lies above some file, so `_make_dirs` has nothing to do and an empty directory is not seen by the sweep.
- The sweep's order and its errors: `os.listdir` gives the names in any order, and a failing `stat` or `remove` is not modelled.
- Numbers: `int` accepts a sign and surrounding blanks here, but neither underscores nor digits outside ASCII.
- `Session.UpdateSession.Run`: the loop does not insist on FILE_END before the next file or the commit, so that only verified files are committed is stated for sessions that close every FILE_START (`Digests.OnlyDeclaredArrives`), not for arbitrary packets.
- `Boot.Run`: the update callback of an application is not modelled; the default session is. `cfg.flag` is the file that the configured name locates, under its absolute name; the default `update_requested.flag` is a relative name.
- `Runs.RunKeepsRecoverable`: the runs lie between two updates. UPDATE_START gives up the old generation, and a commit starts the next one, for which `Outages.EveryUpdateIsWhole` speaks.
- `Outages.EveryUpdateIsWhole`: the one-shot helper is placed by a plain rename and may be lost by a cut.
- `Survivors.RestoreLosesTwoIff`: this and the other results about two lost targets speak of journals and manifests that name no file twice, of manifests whose files are all staged, and of trees without leftover copies.
- `Flag.FlagIsHistory`: no packet deletes the flag itself by a DELETE, and the flag and the marker are two files.
- Refused renames: the run theorems are about media that refuse none; `ExactUndo` and `Limits` say what a refusal does.
- `Commands.Runtime.Poll`: of the other commands (RM, the copy commands, LS, CAT, MPY, MEM and the RTC ones) it says only that they do not reset the board.
- `Fragments.FragmentsAreTheResponse`: speaks of parts whose lengths add up to the announced size, so not of a file that grows while it is sent.
- `FileCopy.RunAgrees`: targets that themselves end in `.cp` or `.bak` are not covered.
- `Counters.RunKeepsOrder`: the link delivers in order. A floor above the host's file, which needs the file to be lost or set back, is excluded at the start; `Counters.NoneMissedIff` says that it has to be.
- The READY broadcast, UPDATE_REQUEST before it, timeouts and retries of the host: the conversation begins with UPDATE_START on a reliable in-order link, and one message gets one reply.
- COBS, SHA-256, UTF-8 and URST themselves: parameters with stated laws. The base64 decoder is a parameter too, with a standard decoder proved to fit.
- Configuration lookups (`_config_int`, `_boot_mark_path`): the parsed numbers and paths are fields of `Config`.
- MEM, RTC, MPY, RM and the path guards of `manager.py`, `paths.py`, `deploy.py`, `minify.py`, the staged clock value that a boot applies first, progress output and the command line: small members beside these parts, or input and output.
- Garbage collection, loggers, heartbeats of the loader, the transmit gap and module unloading: no effect on the modelled state.
