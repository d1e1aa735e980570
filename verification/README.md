# SSH MountMate: verified model

SSH MountMate mounts SSH servers with rclone. Several of its parts change shared state and
must stay right when a step fails, when another copy of the program is at work, or when an
answer comes late. This project models those parts in Dafny and proves what they promise for
every run. Each module follows one part of the program:

| module | models | main results |
|---|---|---|
| `Process`, `MountProtocol`, `MountInvariant`, `MountSignals`, `MountExclusion`, `MountRace`, `MountTraces`, `MountRuntime` | mount, unmount and cleanup of any number of connections, over lock files, state records, a process table with PID reuse and fork-before-exec, and an RC endpoint | mountpoint exclusion exactly until a live process is overlooked, no signal without a snapshot that identifies its process, a record outlives its process, readiness is stable, no started process is left without a stop that was tried |
| `CredentialStore`, `CredentialMigration`, `Configuration` | the credential store and the change of credential storage, with rollback | no secret is lost at any step, rollback is an undo and a single fault leaves everything as it was, switching back and forth keeps every plaintext |
| `DataMigration` | moving the old application directories | nothing is lost or overwritten at any rename, and every resumption ends the same |
| `Text`, `HostKeys` | the confirmed host keys | confirming is a compare-and-swap on one host's keys |
| `Quoting` | the external SSH command line | quoting and taking apart is the identity, through the connector proxy too |
| `Transfer`, `ProgressHistory`, `MountFeedback` | transfer snapshots, the progress of a session, what is shown | no byte counted twice, neither queued nor transferred bytes go back, stale replies are dropped |
| `MountRoots`, `SetupReducer`, `SetupTasks` | the SAI setup and the directory pages it receives | which message starts which task or hands over what, exactly; selections stay within the loaded roots and the slots, stale replies change nothing |
| `ConnectionKeys`, `Imports`, `Registry`, `RegistryChanges`, `PathPlaces`, `Mountpoints` | connection ids, import plans, validation across connections, changes of the saved list, what path keys mean, mountpoint allocation | fresh ids; every change keeps ids and mount targets apart, and the logins exactly until an edit repeats one; for which paths equal keys mean equal places; no target handed out twice |
| `Framing` | reading one command message | the result does not depend on how the bytes arrive |

A class stands for each object that the program updates in place (`Machine`, `Vault`, `Disk`,
`TrustStore`, `TransferProgressHistory`, `MountFeedbacks`, `State`, `MountpointAllocator`, …).
Where the answer comes from outside (the process table, the store, the file system, the
network, the clock), the model's method returns any answer the environment may give; ghost
histories record every state in between, so that "at every step" is a statement about each of
them. A write that reports failure may have taken effect. Ghost counters of faults count the calls that failed, so that
a method which reports an error can be held to what really went wrong.

The mount protocol is modelled twice and the two are tied together. `MountProtocol` says which
events one operation may produce in which state of its knowledge, and what they do to the
machine, and interleaves any number of such operations with processes that start, exec, exit and
reuse PIDs, and with crashes of the program. `MountInvariant` is what every orderly run keeps,
`MountSignals` what follows for signals and removals; `MountExclusion` adds mountpoint exclusion
with its exact condition, and `MountRace` the runs that fail it. `MountRuntime` is the code of
`mount`, `unmount` and `cleanup_stale_state`; each primitive of its `Machine` demands that the
event is allowed, so verifying the methods shows that the code keeps to the protocol. `MountTraces`
says of each part of them what it leaves in the log: the polls of a wait, a stop that was tried, the
removal that follows it.

## Assumptions

- Mount protocol: file locks are exclusive, an operation can tell whether its own state file
  exists and reads it as it is (listing and reading those of others may fail), a spawned process
  reaches exec before its spawner gives up the mount lock, a PID is not handed out again before
  its spawner's first snapshot, a start time names one incarnation of a PID, and the command's
  path options are not spelled like the subcommand. The poll interval is positive.
- Credentials: what the store returns is true, `reveal(obscure(x)) == x`, no obscured text is
  empty, the server file is replaced atomically, server ids are distinct, and no stored
  reference is one that the migration is about to write. References made by the program
  satisfy the last (`Configuration.CanonicalSeparate`). When a change of storage begins, the file
  holds the list that its caller has read.
- Directory migration: nobody else changes the trees, and the pairs of roots do not overlap.
- Snapshots and records: a snapshot that is taken shows a running process with its start time and, once it has
  reached exec, its own command line if that can be read; the program's own argv contains no
  mount subcommand. Every record was written by an operation of the run; those of versions that
  saved no start time are not part of it. Each server id has its own record and its own mount lock: ids that the file
  system cannot tell apart, such as ones that differ in case, would share them.
- Host keys: a hashed name is the hash of one name; whether a key parses is a parameter. That
  confirmations of several hosts are registers is shown for well-formed files, where no name of a
  line is empty or starts with `#` or `@`.
- Percentages and speeds are real numbers.

## Findings

- The reservation test takes a snapshot of a foreign PID first and probes that server's mount
  lock afterwards (`runtime.rs:600-636`). A mount that gives up its lock between the two while its
  process runs is missed, and two mounts end up on one mountpoint: `MountRace.RaceBreaksExclusion`.
- The same test counts a state directory that cannot be listed, a record that cannot be read and a
  lock that cannot be tested as "not reserved". Each of them lets a second mount onto a mountpoint:
  `MountRace.UnlistedBreaksExclusion`, `UnreadBreaksExclusion`, `UnprobedBreaksExclusion`.
  `MountRace.ExclusionFails` gives all four runs for two concrete servers, and these four are all
  there is: an action keeps the invariant behind mountpoint exclusion if and only if no survey
  overlooks a live foreign process by it in one of these ways (`MountExclusion.StepExact`,
  `RunExact`).
- A signal follows its snapshot without holding the process (`runtime.rs:153-181`). If the process
  exits in between and its PID passes to another one, the signal meets a stranger:
  `MountRace.SignalMeetsStranger`.
- A record whose first snapshot failed has no start time. Whatever fits it later is a stranger, and
  every signal that is sent for it meets one: a fitting process is the record's own exactly when the
  record carries a start time (`MountExclusion.MatchIsOwn`), and a signalled one exactly when its
  PID shows the recorded start time (`MountSignals.SignalReachesOwn`). Such runs exist:
  `MountRace.UntimedRecordMatchesStranger`, and `MountRace.MatchExclusionFails` for two concrete
  servers.
- Dropping a name from a shared known_hosts line can turn the line into a comment when the next
  name starts with `#` or `@`: `HostKeys.SharedLineSurvives` says exactly when the other host
  keeps its key, `HostKeys.OthersKeptExactly` the same for a whole file, and
  `HostKeys.SharedLineLosesOther` is such a line, `a,#x,b ssh-rsa K`.
- A name list that ends in a comma can leave one empty name, and the line then starts with the next
  word: after a confirmation for `a`, the line `a, a ssh-rsa K` still binds `a` to a key that was
  not reviewed (`HostKeys.EmptiedLineBindsAgain`). `HostKeys.ConfirmedExactly` says exactly when a
  confirmation binds the reviewed keys and no others.
- A stored reference that another server's migration writes loses its secret, unless both are
  the same: `Configuration.SharedReferenceLoses`, and `Configuration.SharingLoses` for two concrete
  records. The program itself never writes such a reference; the file would have been edited.
- A change of storage saves what became of the list its caller had read, whatever the file holds by
  then (`configuration.rs:474-560`). A connection that another program saved in between is lost:
  `Configuration.StaleListLoses`. Nothing is lost exactly when the list still has every secret of
  the file (`Configuration.StaleListExact`).
- Editing the mount paths checks the mounts but not the connection target (`storage.rs:828-878`).
  The edit of a partly mounted connection can therefore give it the target of another one, which a
  normal save refuses: `RegistryChanges.EditRepeatsTarget`. Connection targets stay distinct
  throughout a run exactly when no edit repeats one (`RegistryChanges.RunTargetsExact`); ids and
  mount targets stay apart always (`RegistryChanges.RunKeepsSeparate`).
- Quoting leaves an empty argument empty, so it is lost: `Quoting.QuotingRoundTrip`. The caller
  rejects empty arguments before.
- Connections without a primary mount can share an id, and are then hidden from the validation
  of each other: `Registry.UpsertKeepsGranted` gives the exact condition and
  `Registry.SharedIdHidesConflict` an example.
- Two spellings of one local place can have two keys, so that two connections are accepted for it:
  `/a//b` and `/a/b` (`PathPlaces.DoubledSlash`), `/../x` and `/x` (`PathPlaces.ParentOfRoot`). The
  normalisation finds the place exactly of paths without an empty part and with an even number of
  `..` at the root, or none on a drive (`PathPlaces.NormalisedExact`), and exactly for these does
  comparing keys decide whether two paths are one place (`PathPlaces.KeysDecideExactly`). The mount
  operations compare keys without any normalisation; a mountpoint in their theorems is such a key.

## Model

| member | source | states |
|---|---|---|
| Process.BuiltCommandMatches | crates/mountmate-core/src/process.rs:67-94 | a process started from the built mount command is recognised by the record made for it |
| MountInvariant.StepKeepsBase | crates/mountmate-core/src/runtime.rs:256-266 | every action of any operation and of an orderly environment keeps the invariant of locks, records, children and operations, races and read failures included |
| MountInvariant.RefutationSound | crates/mountmate-core/src/runtime.rs:485-501 | a snapshot that counts as proof of absence is right: gone, another start time, or a readable argv that does not fit |
| MountExclusion.StepExact | crates/mountmate-core/src/runtime.rs:600-636 | an action keeps the invariant of surveys and mountpoints if and only if no survey overlooks a live foreign process by it: a lock released between snapshot and probe, a missing listing, an unread record, an untested lock |
| MountExclusion.RunExact | crates/mountmate-core/src/runtime.rs:289-406 | a whole run keeps the invariant if and only if nothing was overlooked in it |
| MountExclusion.MountpointExclusion | crates/mountmate-core/src/runtime.rs:289-406 | in every orderly interleaving that overlooks no live foreign process no two servers' recorded processes run on one mountpoint |
| MountExclusion.MatchExclusion | crates/mountmate-core/src/runtime.rs:600-636 | the same over the test the code makes: two records fit on one mountpoint only if one of them has no start time, and that one fits a stranger |
| MountExclusion.MatchIsOwn | crates/mountmate-core/src/runtime.rs:671-676 | in every orderly run a process that fits a record is the one it was written for exactly when the record has a start time |
| MountExclusion.ObserveOtherSound | crates/mountmate-core/src/runtime.rs:627-636 | a live recorded process that is not identified has not reached exec, so its mount lock is still held |
| MountSignals.RemovalOnlyWhenGone | crates/mountmate-core/src/runtime.rs:293-301 | in every orderly run a record is removed only when the process it was written for no longer runs, whatever could be read of its argv |
| MountSignals.SignalsOnlyTheVerified | crates/mountmate-core/src/runtime.rs:153-181 | the last thing an operation did before a signal was a snapshot of the recorded PID with fitting start time and argv, and unless the process exited since, the signal reaches it |
| MountSignals.SignalReachesOwn | crates/mountmate-core/src/runtime.rs:552-583 | in every orderly run the process a signal meets is the record's own exactly when the PID shows the recorded start time, hence never for a record without one |
| MountSignals.QuitOnlyToTheRecorded | crates/mountmate-core/src/runtime.rs:552-571 | quit is sent only after a start time that fits and after the endpoint named the recorded PID |
| MountRace.RaceBreaksExclusion | crates/mountmate-core/src/runtime.rs:600-626 | for any two rival mounts a reachable machine with two live records on one mountpoint, through a lock released between snapshot and probe |
| MountRace.UnlistedBreaksExclusion | crates/mountmate-core/src/runtime.rs:600-603 | the same when the listing fails or leaves the record out |
| MountRace.UnreadBreaksExclusion | crates/mountmate-core/src/runtime.rs:610-612 | the same when the foreign record cannot be read |
| MountRace.UnprobedBreaksExclusion | crates/mountmate-core/src/runtime.rs:617-623 | the same when a held lock is not reported as held |
| MountRace.ExclusionFails | crates/mountmate-core/src/runtime.rs:600-626 | all four runs for two concrete servers on one mountpoint |
| MountRace.UntimedRecordMatchesStranger | crates/mountmate-core/src/runtime.rs:671-676 | a reachable machine where a record without start time fits another server's process |
| MountRace.MatchExclusionFails | crates/mountmate-core/src/runtime.rs:671-676 | that machine for two concrete servers, both of whose records fit on one mountpoint |
| MountRace.SignalMeetsStranger | crates/mountmate-core/src/runtime.rs:153-181 | a reachable machine where a verified operation may signal its PID and the process there is not the one its record was written for |
| MountRuntime.SignalVerified | crates/mountmate-core/src/runtime.rs:153-181 | one snapshot, and a signal to the recorded PID exactly when that snapshot is verified |
| MountRuntime.StatusFor | crates/mountmate-core/src/runtime.rs:485-511 | stale exactly when the snapshot rules the process out, mounted exactly when ready and identified by argv or endpoint; stale is proof for removal |
| MountRuntime.WaitUntilReady | crates/mountmate-core/src/runtime.rs:513-550 | the log of the wait is a sequence of rounds, none of which decides before the last: yes when the good polls have lasted for the stable time, no when the process was lost or the deadline passed |
| MountRuntime.PollOnce | crates/mountmate-core/src/runtime.rs:516-535 | a poll asks up to the first answer that speaks against readiness; a good one saw start time, argv, the recorded PID from the endpoint and a ready mountpoint |
| MountTraces.ReadyMeansStable | crates/mountmate-core/src/runtime.rs:513-550 | after a yes the last good polls are one unbroken run that spans the stable time on the clock |
| MountTraces.NotReadyMeansVain | crates/mountmate-core/src/runtime.rs:513-550 | after a no the process was lost or the time was up, and no unbroken run of good polls had ever spanned the stable time |
| MountRuntime.StopIfOwned | crates/mountmate-core/src/runtime.rs:552-583 | leaves alone what neither argv nor the endpoint identifies; otherwise asks it to quit if named, terminates it, waits, and kills it if it is still identified; stopped exactly when the last snapshot no longer shows it |
| MountTraces.NotStopped | crates/mountmate-core/src/runtime.rs:552-583 | a stop that leaves a process behind had not identified it, or still sees it after its signals |
| MountRuntime.WaitForExit | crates/mountmate-core/src/runtime.rs:585-590 | snapshots that show the process and readings before the deadline, until a snapshot that does not or a reading that is late |
| MountRuntime.ReservedByOther | crates/mountmate-core/src/runtime.rs:600-626 | a yes ends with the test of one listed record that reserves the mountpoint, a no has cleared every listed record |
| MountRuntime.RecordReserves | crates/mountmate-core/src/runtime.rs:603-625 | exactly: a record reserves the mountpoint when it is foreign, on that mountpoint and either not refuted by the snapshot or Starting with its lock held; unreadable records are cleared |
| MountRuntime.SpawnRecorded | crates/mountmate-core/src/runtime.rs:330-375 | the process is spawned and its Starting record saved under the allocation lock, and the record describes it; if the record cannot be written, a stop of that process is tried |
| MountRuntime.Mount | crates/mountmate-core/src/runtime.rs:289-407 | keeps to the protocol on every path and releases its lock; whatever process it spawned is mounted after a stable wait or subject to a stop; without a fault it fails only for a mount that runs already, a reserved mountpoint, or a wait in vain |
| MountRuntime.Settle | crates/mountmate-core/src/runtime.rs:376-406 | after a yes the Mounted record is saved; after a no, or when that save fails, the process is given up |
| MountRuntime.Conclude | crates/mountmate-core/src/runtime.rs:398-406 | success is one write of the Mounted record; a write that fails is followed by a stop of the process |
| MountRuntime.GiveUp | crates/mountmate-core/src/runtime.rs:389-406 | a stop of the recorded process is tried, and the record is removed exactly when its last snapshot no longer showed the process |
| MountRuntime.Unmount | crates/mountmate-core/src/runtime.rs:421-470 | keeps to the protocol and releases its lock; unless the lock or the record cannot be had, what follows the first snapshot is decided as below, and a storage error takes a fault |
| MountRuntime.UnmountRecorded | crates/mountmate-core/src/runtime.rs:426-470 | a process that is gone loses its record, another process under the PID is reported, an unreadable argv without endpoint removes nothing; an identified process is ended, and the record goes once it is gone and the mountpoint unmounted |
| MountRuntime.EndProcess | crates/mountmate-core/src/runtime.rs:445-459 | asked to quit if the endpoint named it, and waited for; a process that is still shown then is stopped and waited for again; gone exactly when the last snapshot does not show it |
| MountTraces.DidNotExitTried | crates/mountmate-core/src/runtime.rs:445-459 | when the process did not exit, the last snapshot still shows it, and a stop of it was tried unless it had been seen gone before |
| MountRuntime.CleanupStaleState | crates/mountmate-core/src/runtime.rs:472-483 | removes the record exactly when one snapshot rules its process out, and otherwise nothing |
| CredentialStore.ReferencesInjective | crates/mountmate-core/src/credential.rs:108-110 | a reference names one secret of one server |
| CredentialStore.RestorePrevious | crates/mountmate-core/src/credential.rs:146-165 | success means the entry is what it was; no other entry is touched at any step |
| CredentialStore.ReplaceVerified | crates/mountmate-core/src/credential.rs:167-197 | success stores the secret and remembers the value before; any failure but a failed rollback leaves the store as it was, and a failed rollback takes two faults |
| CredentialStore.RollbackChanges | crates/mountmate-core/src/credential.rs:206-217 | success means every change is undone, the last one first, also when a reference repeats; otherwise each fault spoils at most one entry |
| CredentialStore.UndoSplit | crates/mountmate-core/src/credential.rs:206-217 | undoing two lists of changes is undoing the second and then the first |
| CredentialStore.CaptureExisting | crates/mountmate-core/src/credential.rs:542-549 | exactly the listed references with an entry, with what they hold |
| CredentialStore.DeleteCredentialReferences | crates/mountmate-core/src/credential.rs:538-567 | success removes all listed references and nothing else; after a failure every entry is what it was, except at most one for each further fault |
| CredentialMigration.MigrateObscuredField | crates/mountmate-core/src/credential.rs:439-461 | an existing reference is checked, a new one holds the revealed plaintext, and the noted changes undo to the same store |
| CredentialMigration.PrepareServerToSystem | crates/mountmate-core/src/credential.rs:379-419 | both fields hold their plaintext and the changes undo to the store before; a failure that could be rolled back changes nothing |
| CredentialMigration.HydrateField | crates/mountmate-core/src/credential.rs:514-526 | an obscured copy that reveals what the reference holds |
| CredentialMigration.PrepareServerToObscure | crates/mountmate-core/src/credential.rs:484-504 | the candidate has obscured copies of all its references and no change was made |
| Configuration.CanonicalSeparate | crates/mountmate-core/src/credential.rs:108-110 | with references made by the program and distinct ids, nothing stored is overwritten |
| Configuration.PrepareAll | crates/mountmate-app/src/configuration.rs:480-510 | every server's candidate, over a store that the noted changes undo; a failure takes a fault or a reference without entry, and restores all but one entry per further fault |
| Configuration.RollbackMigrations | crates/mountmate-app/src/configuration.rs:503-508 | without an error all changes of all migrations are undone; no more errors than faults, and no more spoilt entries |
| Configuration.RollbackAfterPersistence | crates/mountmate-app/src/configuration.rs:450-472 | each further error takes a fault; a failed server rollback is reported only if that save failed, and then the store is left alone; otherwise the file is the previous one and the store as at the start, but for one entry per fault |
| Configuration.PersistAndReload | crates/mountmate-app/src/configuration.rs:562-583 | success means the reloaded file is the candidate; a failure takes a fault, and with no other one file and store are as at the start |
| Configuration.ReloadedFinalizes | crates/mountmate-app/src/configuration.rs:519-554 | what was reloaded as saved always passes the two checks behind it |
| Configuration.FinalizeAll | crates/mountmate-app/src/configuration.rs:517-554 | the final records and all references to retire; none of its checks can fail |
| Configuration.MigrateServersForStorage | crates/mountmate-app/src/configuration.rs:474-560 | at every step each secret that could be recovered is recovered; a failure is accounted for by faults or a reference without entry, and restores what those left restorable |
| Configuration.FinalsMigrated | crates/mountmate-core/src/credential.rs:281-311 | to System: every reference holds the revealed plaintext; to Obscure: no reference, and every copy reveals what it held |
| Configuration.SaveSettings | crates/mountmate-app/src/configuration.rs:175-286 | the whole change of storage keeps every secret at every step; without a warning all retired references are gone and nothing else; a failure takes a fault, and whatever the other faults leave restorable is restored |
| Configuration.SingleFault | crates/mountmate-app/src/configuration.rs:450-472 | a change of storage that failed by a single fault leaves file and store as they were |
| Configuration.RetiredAll | crates/mountmate-app/src/configuration.rs:531-544 | the references to retire are all the stored ones |
| Configuration.SwitchingKeepsPlaintexts | crates/mountmate-app/src/configuration.rs:474-560 | however often the storage is switched, every server's plaintexts stay what they were |
| Configuration.SharedReferenceLoses | crates/mountmate-core/src/credential.rs:456-460 | a write to a reference another record uses keeps that secret exactly when both secrets are equal |
| Configuration.SharingLoses | crates/mountmate-core/src/credential.rs:456-460 | two concrete records where the migration of the first would overwrite the secret of the second |
| Configuration.StaleListExact | crates/mountmate-app/src/configuration.rs:474-560 | what the migration saves over any file keeps all its secrets exactly when the list it started from has them |
| Configuration.StaleListLoses | crates/mountmate-app/src/configuration.rs:562-583 | a connection saved after the list was read is lost with its secret |
| DataMigration.Preflight | crates/mountmate-core/src/data_migration.rs:74-97 | passes only if nothing below is refused, and refuses only for that or a failing file system |
| DataMigration.Merge | crates/mountmate-core/src/data_migration.rs:98-117 | success moves exactly what lay below; at every step each node is where it was or where it goes; only the file system can fail |
| DataMigration.MigrateWindowsData | crates/mountmate-core/src/data_migration.rs:5-27 | refused means nothing moved; done means the old destination united with the source, and the source gone |
| DataMigration.MidKeepsFiles | crates/mountmate-core/src/data_migration.rs:98-117 | in between every original file is at exactly one of its two paths, unchanged, and no destination file is altered |
| DataMigration.MidResumable | crates/mountmate-core/src/data_migration.rs:74-97 | from any state in between preflight passes again and the result is the same |
| DataMigration.ResumingReachesTheSame | crates/mountmate-core/src/data_migration.rs:5-27 | after any number of stopped runs the next one still passes and ends as the first would have |
| Text.LinesJoin | crates/mountmate-core/src/host_key.rs:125-141 | lines joined and ended with a line break are read back, without a carriage return at their ends |
| Text.WordsJoin | crates/mountmate-core/src/host_key.rs:126 | words joined with spaces are read back |
| Text.SplitJoin | crates/mountmate-core/src/host_key.rs:131-137 | parts joined with a separator are read back |
| HostKeys.MatchesOne | crates/mountmate-core/src/ssh.rs:50-78 | a pattern matches at most one host's marker |
| HostKeys.MarkerNotBracketed | crates/mountmate-core/src/ssh.rs:23-29 | a marker never has the bracketed form with port 22 |
| HostKeys.ConfirmedMeaning | crates/mountmate-core/src/host_key.rs:124-141 | the host is bound to exactly the keys, every other host's bindings and all lines that bind nothing stay, in order |
| HostKeys.ConfirmedExactly | crates/mountmate-core/src/host_key.rs:124-141 | for any file: the host is bound to the reviewed keys alone if and only if no line is emptied and then names it |
| HostKeys.OthersKeptExactly | crates/mountmate-core/src/host_key.rs:124-141 | for any file without such lines for another host, its bindings stay if and only if no line that binds it turns into a comment |
| HostKeys.EmptiedLineBindsAgain | crates/mountmate-core/src/host_key.rs:131-139 | for every host a line that binds it again after its name was dropped |
| HostKeys.SharedLineSurvives | crates/mountmate-core/src/host_key.rs:131-139 | on a shared line the other host keeps its key exactly when the first remaining name does not start a comment |
| HostKeys.SharedLineLosesOther | crates/mountmate-core/src/host_key.rs:131-139 | a concrete line whose second host loses its key |
| HostKeys.NormalizeKeys | crates/mountmate-core/src/ssh.rs:778-799 | exactly the host's valid keys among the scanned lines |
| HostKeys.Review | crates/mountmate-core/src/host_key.rs:51-88 | without a fault a review comes about exactly when a scanned key is valid; it holds exactly the valid ones and what was bound when it was opened |
| HostKeys.IsConfirmed | crates/mountmate-core/src/host_key.rs:94-100 | yes exactly when the file can be read and binds the reviewed keys |
| HostKeys.Confirm | crates/mountmate-core/src/host_key.rs:104-143 | without a fault it succeeds exactly when the keys are bound already or both files still have what the review captured; the file changes only then, and holds the confirmed lines |
| HostKeys.WellFormedWritten | crates/mountmate-core/src/host_key.rs:124-141 | in a well-formed file a confirmation that was written is one of the commits below: it binds exactly the reviewed keys |
| HostKeys.RunRefinesRegister | crates/mountmate-core/src/host_key.rs:104-143 | every interleaving of confirmations is, for each host, a run of a compare-and-swap register |
| HostKeys.CommitsChain | crates/mountmate-core/src/host_key.rs:113-121 | each change replaces exactly what its review captured, which is what the change before it wrote |
| Quoting.QuoteCommandArgument | crates/mountmate-core/src/rclone.rs:377-406 | the loop computes the specified quoting |
| Quoting.QuotedReadsBack | crates/mountmate-core/src/rclone.rs:377-406 | a quoted argument is read back by the rules of the platform, and reading stops right after it |
| Quoting.QuotingRoundTrip | crates/mountmate-core/src/rclone.rs:90-95 | joined and taken apart, the arguments come back exactly when none of them is empty |
| Quoting.RcloneRemote.PushExternalSsh | crates/mountmate-core/src/rclone.rs:87-97 | accepted exactly when every argument is a valid scalar, and then the option reads back as the arguments |
| Quoting.RcloneRemote.WrapExternalSsh | crates/mountmate-core/src/rclone.rs:142-158 | the first ssh option, and nothing else, is put behind the proxy |
| Quoting.ProgramNameReadsBack | crates/mountmate-core/src/rclone.rs:377-406 | as a program name the quoted proxy reads back exactly without double quotes and a backslash at the end |
| Quoting.ConnectorReceives | crates/mountmate-app/src/cli.rs:41-51 | through the proxy the parser yields the original program and arguments |
| Transfer.BuildTransferSnapshot | crates/mountmate-core/src/transfer.rs:108-234 | each file is credited with the first free matching transfer and no transfer twice, so no byte counts twice; every file's bytes, percentage and speed, the saturating sums and all counters are exact, synced exactly when all is empty |
| Transfer.TransferredWithinQueued | crates/mountmate-core/src/transfer.rs:130-136 | while all sizes are positive no more is transferred than queued |
| Transfer.AppendUnmatched | crates/mountmate-core/src/transfer.rs:167-205 | the first unmatched transfers, as many as are uploaded without a queue item |
| Transfer.FindActive | crates/mountmate-core/src/transfer.rs:119-125 | the first unmatched transfer with a matching name |
| Transfer.MatchesByParts | crates/mountmate-core/src/transfer.rs:97-106 | names match exactly when one, part by part and case by case, is the end of the other; the two sides do not differ |
| ProgressHistory.TransferProgressHistory.Smooth | crates/mountmate-app/src/mount_feedback.rs:134-207 | the update in place is the specified ledger step and shown snapshot |
| ProgressHistory.PotentialGrows | crates/mountmate-app/src/mount_feedback.rs:149-178 | completed bytes and known files together never shrink in a session, and retiring moves them without changing the total |
| ProgressHistory.NothingForgotten | crates/mountmate-app/src/mount_feedback.rs:134-206 | the same over any stretch of a session |
| ProgressHistory.QueuedNeverGoesBack | crates/mountmate-app/src/mount_feedback.rs:149-200 | the queued bytes shown with details never go back, also across snapshots without details |
| ProgressHistory.TransferredNeverGoesBack | crates/mountmate-app/src/mount_feedback.rs:149-200 | the transferred bytes shown with details never go back within a session while no listed file loses bytes |
| ProgressHistory.SidesAlike | crates/mountmate-app/src/mount_feedback.rs:149-200 | smoothing treats queued and transferred bytes alike: exchanging them before exchanges them after |
| ProgressHistory.RemainderStays | crates/mountmate-app/src/mount_feedback.rs:176-206 | unless a counter saturates, what is still to be transferred is the same before and after smoothing, and nothing shrinks |
| ProgressHistory.ShownProportional | crates/mountmate-app/src/mount_feedback.rs:179-200 | whenever the snapshot has queued bytes the percentage shown is the ratio of the two bytes shown |
| ProgressHistory.IdleCompletesAll | crates/mountmate-app/src/mount_feedback.rs:154-204 | at the first idle snapshot every known file is completed once, and 100 percent of the total is shown |
| ProgressHistory.SessionsAreSeparate | crates/mountmate-app/src/mount_feedback.rs:141-147 | a session that begins does not depend on the one before |
| MountFeedback.TransferState.Update | crates/mountmate-app/src/mount_feedback.rs:90-102 | records the observation, shows the smoothed snapshot and counts the synced updates in a row |
| MountFeedback.TransferState.Fail | crates/mountmate-app/src/mount_feedback.rs:104-112 | announces the third failure in a row, and later ones with another error |
| MountFeedback.TransferState.Shows | crates/mountmate-app/src/mount_feedback.rs:114-125 | synced exactly after two synced updates in a row, an error exactly after three failures in a row, for any history |
| MountFeedback.MountFeedbacks.StartRead | crates/mountmate-app/src/mount_feedback.rs:26-38 | a request that would be accepted now |
| MountFeedback.AcceptedUnlessForgotten | crates/mountmate-app/src/mount_feedback.rs:26-53 | a reply is accepted exactly when its mount was not forgotten after the read started |
| MountRoots.Validate | crates/mountmate-sai/src/mounts.rs:107-131 | a page passes exactly when its header fits, its ids are distinct and every item is well formed |
| SetupReducer.DeliveredFixesPaths | crates/mountmate-sai/src/mounts.rs:101-131 | a page that was validated before it is delivered gives each id one path |
| SetupReducer.State.Update | crates/mountmate-app/src/sai_setup.rs:314-592 | the update in place is the specified step, with its task and outcome |
| SetupTasks.LoginStartsExactly | crates/mountmate-app/src/sai_setup.rs:321-368 | a login starts exactly when nothing is pending and a start, a restart or a setup for directories was asked for, which alone makes it one for directories only |
| SetupTasks.LoginFinishesExactly | crates/mountmate-app/src/sai_setup.rs:370-387 | a login is finished exactly after its own successful beginning |
| SetupTasks.EnrollmentStartsExactly | crates/mountmate-app/src/sai_setup.rs:480-520 | an enrollment starts exactly for Enroll or Reauthorize with nothing pending, no target, a session and site, and a settled selection; it replaces a retired key exactly for Reauthorize, which needs one |
| SetupTasks.FetchesExactly | crates/mountmate-app/src/sai_setup.rs:616-637 | directories are fetched exactly when they are wanted of a session that lists them, from where the last page ended |
| SetupTasks.OutcomeExactly | crates/mountmate-app/src/sai_setup.rs:420-562 | a connection is handed over exactly when the current enrollment succeeded, directories exactly when a settled choice is used, both with the chosen roots in order |
| SetupTasks.PendingExactly | crates/mountmate-app/src/sai_setup.rs:314-592 | pending from a login or enrollment until it ends or is cancelled |
| SetupTasks.ErrorExactly | crates/mountmate-app/src/sai_setup.rs:314-592 | which error is shown after which message, and until when |
| SetupTasks.SessionExactly | crates/mountmate-app/src/sai_setup.rs:314-592 | session, target and generation change exactly with a login, its answer, an enrollment or a cancellation |
| SetupTasks.SiteExactly | crates/mountmate-app/src/sai_setup.rs:314-592 | which site is chosen, when the login is shown and when the setup is ready |
| SetupTasks.RootsExactly | crates/mountmate-app/src/sai_setup.rs:442-466 | directories are only appended, page by page, until all of them are dropped |
| SetupTasks.ChoiceExactly | crates/mountmate-app/src/sai_setup.rs:467-479 | the choice changes by one loaded directory at a time, and a new path needs a free slot |
| SetupTasks.RequestExactly | crates/mountmate-app/src/sai_setup.rs:442-466 | from when to when a directory request is outstanding, and which failure of it is kept |
| SetupTasks.RunKeepsChosen | crates/mountmate-app/src/sai_setup.rs:314-592 | in every run the chosen site is one of the session, and of the edited connection in a setup for directories |
| SetupTasks.ApplySelectedRoots | crates/mountmate-sai/src/mounts.rs:143-167 | every root gets a mount whose path is new, the first of them in the unused primary one |
| SetupTasks.HandedOverFits | crates/mountmate-sai/src/mounts.rs:143-167 | what is handed over never brings the connection beyond 64 mounts |
| SetupReducer.StepKeepsInv | crates/mountmate-app/src/sai_setup.rs:442-479 | selected roots are loaded ones, and new paths never exceed the slots |
| SetupReducer.RunKeepsInv | crates/mountmate-app/src/sai_setup.rs:314-592 | the same after every sequence of messages, whose pages have passed the validation |
| SetupReducer.OutcomeWithinSlots | crates/mountmate-app/src/sai_setup.rs:420-441 | the directories handed over are selected ones and add no more new paths than there were slots |
| SetupReducer.RequestsDiffer | crates/mountmate-app/src/sai_setup.rs:593-636 | no two directory requests have the same pair of generations |
| SetupReducer.StaleRepliesChangeNothing | crates/mountmate-app/src/sai_setup.rs:442-466 | a reply counts exactly when its request has been outstanding ever since it was sent, otherwise the state is unchanged |
| SetupReducer.ConfiguredOnlyAfterEnrollment | crates/mountmate-app/src/sai_setup.rs:480-571 | given that Finished messages come from enrollments, a configured outcome belongs to one of this run and of its generation, and the setup was never directory-only, reset or enrolled anew since |
| Imports.UniqueId | crates/mountmate-core/src/connection.rs:798-806 | an unused id, the first that is free, after at most one more try than there are servers |
| Imports.TriedAtMost | crates/mountmate-core/src/connection.rs:802-805 | while all tried ids are used, fewer were tried than there are servers |
| Imports.ImportDuplicate | crates/mountmate-core/src/connection.rs:1020-1046 | new exactly when nothing known repeats it, and the closest kind of duplicate otherwise |
| Imports.PlanSshImports | crates/mountmate-core/src/connection.rs:922-974 | every item carries its host under a fresh id and names the closest duplicate among the existing connections and the new ones before it |
| Imports.PlanServerImports | crates/mountmate-core/src/connection.rs:979-1018 | the same for full connections, by their whole fingerprint |
| Imports.NewItemsAreFresh | crates/mountmate-core/src/connection.rs:922-974 | new items have distinct unused ids and repeat neither an existing connection nor an earlier new one |
| Imports.OverwriteRepeats | crates/mountmate-core/src/connection.rs:944-962 | an overwrite is offered only for an existing, unprotected connection that the import repeats |
| Imports.Apply | crates/mountmate-core/src/connection.rs:879-919 | the first refused action decides the error; otherwise the results are, in order, exactly what the actions take from their items |
| Imports.PlanRefusals | crates/mountmate-core/src/connection.rs:879-919 | on the list it was planned for a plan refuses exactly the actions it does not offer |
| Imports.AppliedPlan | crates/mountmate-core/src/connection.rs:879-919 | what a plan takes is new and repeats nothing, or replaces an unprotected connection that it repeats |
| Imports.OverwriteKeepsSecrets | crates/mountmate-core/src/connection.rs:1069-1094 | an overwrite keeps a password exactly when it was saved for the same login, a passphrase exactly when for the same key file, and keeps id, paths and the rest |
| Imports.SecretsStayBound | crates/mountmate-core/src/connection.rs:782-796 | whatever secret an imported SSH host ends up with belonged to the connection it replaces, for the same login or key file |
| Registry.ValidateMountMappings | crates/mountmate-core/src/connection.rs:1112-1193 | accepts exactly the connections that are well formed and conflict with no other |
| Registry.NormalisedIdempotent | crates/mountmate-core/src/connection.rs:1146-1157 | normalising a path key twice is normalising it once |
| PathPlaces.NormalisedExact | crates/mountmate-core/src/connection.rs:1146-1157 | normalising a key gives the names from its root on exactly for regular keys |
| PathPlaces.KeysDecideExactly | crates/mountmate-core/src/connection.rs:1136-1157 | comparing its key with the regular ones tells which lead to the same place exactly for a regular key |
| PathPlaces.DoubledSlash | crates/mountmate-core/src/connection.rs:1136-1191 | `/a//b` and `/a/b` are one place with two keys, and two connections are accepted for it |
| PathPlaces.ParentOfRoot | crates/mountmate-core/src/connection.rs:1136-1191 | the same of `/../x` and `/x` |
| Registry.Upsert | crates/mountmate-core/src/storage.rs:62-78 | accepted exactly when it validates and no other id has its target; it replaces the first with its id or is added |
| Registry.UpsertKeepsGranted | crates/mountmate-core/src/connection.rs:1158-1191 | a validated change keeps all targets apart exactly when it fits the connections hidden by a shared id |
| Registry.SharedIdHidesConflict | crates/mountmate-core/src/connection.rs:1160-1164 | a shared id hides a conflict from the validation |
| RegistryChanges.UpsertServers | crates/mountmate-core/src/storage.rs:80-98 | all updates in order, each validated against those before it, or none |
| RegistryChanges.RemoveServers | crates/mountmate-core/src/storage.rs:125-145 | removes exactly the selected connections; refused exactly when an id is unknown or repeated |
| RegistryChanges.ReorderServers | crates/mountmate-core/src/storage.rs:149-181 | accepted exactly when the order names as many known, distinct ids as there are connections |
| RegistryChanges.ReorderPermutes | crates/mountmate-core/src/storage.rs:147-181 | an accepted order means that no id is shared, and the result is a permutation of the connections |
| RegistryChanges.UpdateMountPaths | crates/mountmate-core/src/storage.rs:828-878 | accepted exactly for a connection still as expected, with valid mounts, no busy target and all mounted ones unchanged; it replaces that connection's paths |
| RegistryChanges.TargetsExact | crates/mountmate-core/src/storage.rs:62-113 | a change of one connection keeps the connection targets distinct exactly when its target is new |
| RegistryChanges.EditRepeatsTarget | crates/mountmate-core/src/storage.rs:828-878 | an edit that gives a connection the target of another one, which a save would refuse |
| RegistryChanges.StepKeeps | crates/mountmate-core/src/storage.rs:62-181 | every batch of upserts, removal, reordering or edit of paths keeps ids, target identities and explicit places distinct, and the connection targets exactly when it is not an edit that repeats one |
| RegistryChanges.RunKeepsSeparate | crates/mountmate-core/src/storage.rs:62-181 | ids, target identities and explicit places stay distinct over every sequence of changes |
| RegistryChanges.RunTargetsExact | crates/mountmate-core/src/storage.rs:828-878 | the connection targets stay distinct throughout a sequence of changes exactly when no edit repeats one |
| Mountpoints.MountpointAllocator.AllocateWindowsDrive | crates/mountmate-core/src/mountpoint.rs:652-660 | the highest free letter; none exactly when D to Z are all occupied or reserved |
| Mountpoints.MountpointAllocator.AllocateHomeFolder | crates/mountmate-core/src/mountpoint.rs:662-687 | the first free one of the numbered folders; an error exactly when all are taken |
| Mountpoints.MountpointAllocator.Resolve | crates/mountmate-core/src/mountpoint.rs:623-650 | everything returned has its own key, was not reserved, and is no occupied drive; each kind of configured value is answered exactly, errors included |
| Mountpoints.CustomFresh | crates/mountmate-core/src/mountpoint.rs:705-740 | a custom path that passes is not reserved and is no bare drive |
| Framing.ReadMessage | crates/mountmate-core/src/app_command.rs:558-592 | the bytes before the first newline exactly when it is among the first 65536, however they arrive; a stream or deadline error exactly when a read failed or the time was up; never more than 65537 bytes held |
| Framing.ReadChunk | crates/mountmate-core/src/app_command.rs:563-589 | one round extends the prefix that was read, or finds the first newline |

## Left out

- MountRuntime: the RC password file, log rotation and tails, `prepare` of the mountpoint and the reported error texts; an operation's own crash is an action of the protocol, not of the code.
- MountRuntime.Mount: the built command's later options are one unspecified tail.
- Configuration.SaveSettings: only what a change of storage does to records and store; the login-startup settings and the case of an unchanged storage change no secret.
- Configuration.FinalizeAll: the rollback after a check of the reloaded records that fails, since a reload equal to what was saved passes every check (`Configuration.ReloadedFinalizes`).
- save_connection and its managed SSH profile: the profile file depends on code that is not part of this model.
- DataMigration.MigrateWindowsData: rewriting the cache root in the settings and removing the emptied parent directories afterwards; ancestors of the roots are one fact, whether a link is among them.
- HostKeys: scanning and parsing keys, fingerprints, and the choice of algorithms; SHA-1 and HMAC are parameters.
- HostKeys.Review: the port arrives in its normalised form.
- Quoting: double quotes in the POSIX rules and expansions before quote removal, neither of which the quoting produces or guards against.
- Transfer: NaN and infinite percentages, and JSON.
- SetupReducer: the browser, clipboard, device-code and progress messages, which touch none of the modelled fields, and IP address spellings in the host comparison.
- Imports: tags, the folder and the cache options are one field that an overwrite keeps; mode and SSH configuration path one that it takes over.
- Imports.UniqueId: how the base is sanitised; it is a parameter.
- Mountpoints: the rules by which Windows joins rooted and drive-relative paths; paths are joined as on Unix.
- Mountpoints: the reduction of a display name to a folder name; it is a parameter.
- Registry: the file the list is written to, its normalisation when it is loaded, and the preference updates, which change no target.
- Framing: authentication and JSON parsing of the payload.
