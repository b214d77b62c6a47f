# Torkitten, verified

Torkitten is a small control plane in front of an onion service. It keeps one durable state
record and keeps Tor, Caddy and Authelia in step with it: every operation changes a component
first, commits the state second, and takes the change back if the commit fails. This project
models that machinery in Dafny and proves what it promises, over every run: agreement of store,
files and running components, crash safety of identity rotation, the process supervisor under
every interleaving, the rate and session limits, the meaning of the rendered routes, and two
pieces of the vendored Caddy underneath: its configuration tree, where every operation's success
and effect are stated on the values at its path, and its pool, which is free of deadlock.

`dafny verify dfyconfig.toml` checks everything.

## Modules

- `Control`: the manager's operations, startup, and whole runs of them (`Manager.Live`).
- `Failures`: runs of the control plane that show its exceptions can happen.
- `Rotation`, `Identity`: identity rotation with its rollback; the identity directories, where
  every file step may fail or be the point of a crash, and recovery.
- `Components`: the steps on Tor, Caddy and Authelia.
- `StateStore`: atomic file replacement and the transactional store.
- `AuthFiles`: Tor's client authorization directory.
- `Routing`, `Mappings`, `Model`, `Text`, `Options`: the rendered configuration and what it does
  with a request, the mapping list, the state record and its validation, strings and sorting, and
  how steps end.
- `Supervisor`: one worker of the supervisor as interleaved steps.
- `Tokens`, `Sessions`, `SignOut`: API tokens with their rate limit, local sessions with their
  timeouts, and what a rotation does to sessions.
- `ConfigTree`, `Decimal`, `UsagePool`: Caddy's configuration tree and reference-counted pool.

Code that changes things step by step is a class with loops and frames. The supervisor and the
usage pool are concurrent; they are state machines whose steps are the critical sections of the
source, and their claims hold for every sequence of enabled steps.

How each step of an operation ends is an input of the model, so the claims are about every way
the steps can end, and their conditions can be read off before the call. A disk step works, fails
or is the point of a crash; a component step works, fails, or takes effect and reports an error;
a state write works, fails before its rename, reports an error after it, or crashes.

## Main results

- **Crash safety.** From every recoverable state, the first steps of startup, if they work, leave
  exactly the durable identity's files active, no backup and no stage (`Disk.EnsureAndRecover`);
  every other outcome, a crash after any file step included, is recoverable. Whatever a run of
  the control plane leaves behind, a startup whose steps work comes up (`Manager.Startup`,
  `Manager.Step`, `ComesBackUp`).
- **Whole runs** (`Manager.Live`). After any sequence of operations, crashes, failed and
  successful startups: while the plane is up, memory, state file, client files, torrc, what Tor
  loaded, Authelia and Caddy's live configuration all say the same. It stays up as long as the
  compensating steps work and no file write reports an error after its rename, and it comes back
  up with every startup whose steps work. A restart can bring back exactly the files the plane started with, or
  those Tor generated for a rotation. The exception is a rotation whose state write reports an
  error after its rename, which loses the identity (`Failures.LostIdentity`).
- **Rotation** is all or nothing, and Caddy always covers the identity Tor publishes during a
  forward run. Neither holds for every rollback, and the exact conditions are proved: with every
  rollback step working, everything is back unless both renames of the activation failed
  (`Rotator.Apply`, `Failures.StrandedRotation`), and the old identity is covered throughout
  exactly if the live configuration covers it when the rollback starts (`Rotator.Rollback`,
  `FinalRenderDropsOldIdentity`).
- **Supervisor**: at most one live child, no child left behind, commands never lost, at most six
  launches until the next command and five more for every process that lived over two minutes. The
  last two have exact exceptions, stated on the run in both directions, with witness runs
  (`SettledObeysOrLost`, `RestartCeiling`). What switches a worker off is an exact property of its
  run (`SwitchedOffAfterSix`), and a cancelled loop can always return (`ShutdownCompletes`).
- **Rate limit**: 20 plus one per second in every window, exactly when the token's bucket was not
  lost on the way, by a revocation that did not reach the store or by a restart
  (`PlainBoundIffBucketKept`); `Spree` is a run of the manager that reaches the bound. A call is
  refused only if granting it would break that law (`GrantedIffWithinTheRate`).
- **Access**: while the plane is up Tor lets in exactly the devices of the state and the pending
  one (`TorAdmitsExactly`); after a rotation every device has a credential that ends in the secret
  of the key under which Tor lets it in (`RotateIdentity`).
- **Sessions**: a cookie authenticates exactly if the use continues an unbroken chain of its uses
  (`Sessions.Manager.Authenticate`).
- **Publication** that is refused leaves everything as it was if its compensations work, exactly
  unless the write of torrc took effect, reported an error and made a difference
  (`SetPublication`, `Failures.StrayTorrc`).
- **Tor reconciliation** that fails puts the files back without a reload; Tor is then out of step
  exactly if its reload took effect and reported an error while a pending device had expired
  (`ReconcileTor`, `Failures.StrayReload`).

## Hypotheses

- After a compensation that did not work the plane is only restarted (`Degraded` in `Live`): no
  agreement is claimed until then, and no rotation begins. `BackupIsSpare` shows why: a rotation
  first deletes the backup, which is safe exactly if the active directory holds the durable identity.
- A first startup is shown to come up if, besides its steps working, the renderer's paths are safe
  and the directory it settles on has no directory or special file with the name of a client's file
  (`Ready`). Every operation, wherever it stops, keeps this, and an agreeing plane has it.
- A removed or renamed directory entry, and a replaced file, survive a crash once the call has
  returned; a recursive removal can stop anywhere.
- Fresh random identifiers, cookies and onion identities do not repeat, hashes do not collide,
  the clock does not go backwards, JSON encoding and decoding are a round trip on valid states,
  float seconds are reals. Random values, times and key material are parameters.
- Strings are byte strings. `TrimSpace` is modelled for ASCII. Error texts are not modelled.

## Model

| member | source | states |
|---|---|---|
| `Identity.BackupIsSpare` | internal/tor/tor.go:279-285 | without its backup a recoverable identity survives if and only if the active directory passes for it |
| `Identity.HostnameIff` | internal/tor/tor.go:132-147 | a hostname file names an identity if and only if it has at most 128 characters and is the onion name with nothing but white space around it |
| `Identity.Disk.Rename` | internal/tor/tor.go:283-288 | works if the call does and nothing is at the target; a failure changes nothing, a crash is before or after |
| `Identity.Disk.RemoveAll` | internal/tor/tor.go:280-282 | works if its steps do and then leaves nothing at the path; a failure or crash leaves a remnant; nothing else changes |
| `Identity.Disk.Stage` | internal/tor/tor.go:230-274 | done exactly if its steps work, the stage is free and a hostname appears; then it holds the generated files and exactly the given clients; other directories keep theirs |
| `Identity.Disk.Activate` | internal/tor/tor.go:275-292 | its outcome is determined by its steps; stage becomes active and old becomes backup, or the old one is active still, except exactly when both renames fail; after every outcome startup settles on the same whole directory |
| `Identity.Disk.Restore` | internal/tor/tor.go:293-307 | works if its steps do and makes the backup active; after every failure and crash startup settles on the same whole directory |
| `Identity.Disk.Finish` | internal/tor/tor.go:308-313 | touches the backup only, and startup settles on the same directory |
| `Identity.Disk.Ensure` | internal/tor/tor.go:55-65 | works if its steps do; creates what is missing, keeps the active files, and startup settles on the same directory |
| `Identity.Disk.RemoveStages` | internal/tor/tor.go:315-318 | only stages go, and all of them if the removals work; errors do not stop it |
| `Identity.Disk.Recover` | internal/tor/tor.go:314-339 | with an active directory it works if its steps do, errors in sweeping stages ignored, and makes active the whole directory startup settles on, with no backup; after every other outcome startup settles on it still; it never succeeds unless one of the two directories has the identifier |
| `Identity.Disk.EnsureAndRecover` | internal/bootstrap/bootstrap.go:52-53 | from every recoverable state, if the steps work exactly the durable files are active, with no backup and no stage; otherwise it is recoverable still |
| `Identity.RecoverableIsSettled` | internal/tor/tor.go:319-328 | an identity is recoverable exactly if startup settles on its files |
| `StateStore.File.AtomicWrite` | internal/state/store.go:231-280 | at every moment the file is wholly old or wholly new; an error before the rename keeps the old, an error after it has the new |
| `StateStore.ReopenIsMemory` | internal/state/store.go:49-52 | reopening gives the memory value if and only if no bootstrap window is open |
| `StateStore.Store.Open` | internal/state/store.go:32-53 | loads exactly what the file holds without its bootstrap window, makes a missing file the new state, refuses an unreadable or invalid one |
| `StateStore.Store.Persist` | internal/state/store.go:91-107 | only valid states reach the file |
| `StateStore.Store.Transition` | internal/state/store.go:66-90 | memory and file both move or neither does; the compensation runs exactly for what was applied and not committed; a late write error parts them unless nothing changed |
| `AuthFiles.ReconciledIsExact` | internal/tor/tor.go:192-224 | the non-directory client files are exactly the expected ones with their keys, everything else is as before |
| `AuthFiles.ReconciledTwice` | internal/tor/tor.go:192-224 | reconciling again changes nothing |
| `AuthFiles.FilesOfMore` | internal/tor/tor.go:176-181 | one client more is one file more |
| `AuthFiles.FilesOfLess` | internal/tor/tor.go:182-191 | one client less is one file less |
| `AuthFiles.ReconciledClients` | internal/tor/tor.go:192-224 | from any directory contents the client files come to be those of the expected clients |
| `AuthFiles.FilesOfInjective` | internal/tor/tor.go:180 | the client files determine the clients and their keys |
| `AuthFiles.AuthDir.WriteAuthorization` | internal/tor/tor.go:176-181 | succeeds exactly if the step works, the record is well formed and no directory or special file is in the way; replaces one client file or nothing |
| `AuthFiles.AuthDir.WriteAll` | internal/tor/tor.go:200-209 | every expected file is written and no entry is lost on the way |
| `AuthFiles.AuthDir.RemoveStale` | internal/tor/tor.go:210-222 | exactly the stale client files go, and no expected one at any point |
| `AuthFiles.AuthDir.Reconcile` | internal/tor/tor.go:192-224 | succeeds exactly if the steps work and every expected client can be written, from any contents, and then gives the reconciled directory; at no step, failing or not, does an expected client that had a file lack one |
| `AuthFiles.AuthDir.ExpectedClients` | internal/tor/tor.go:193-199 | the map of devices and pending device |
| `Components.Runtime.WriteConfig` | internal/tor/tor.go:106-112 | torrc holds the publication flag, or the old one if the write did not take effect |
| `Components.Runtime.ReloadTor` | internal/tor/tor.go:343 | Tor has what is on the disk, or what it had |
| `Components.Runtime.ApplyCaddy` | internal/caddy/caddy.go:160-169 | the live configuration is the new one, or the old one |
| `Components.Runtime.RestartAuthelia` | internal/caddy/rotation.go:126-128 | the process has what its file said, or what it had |
| `Components.Runtime.WriteAuthorization` | internal/tor/tor.go:176-181 | writes the client file through the directory, or changes nothing |
| `Components.Runtime.RemoveAuthorization` | internal/tor/tor.go:182-191 | removes the client file through the directory, or changes nothing |
| `Components.Runtime.Reconcile` | internal/tor/tor.go:192-224 | runs the reconciliation of the client directory; success leaves exactly the expected client files there |
| `Components.ClientsLeaveIdentity` | internal/tor/tor.go:66 | client files make no difference to the recovery of an identity |
| `Components.CoversIff` | internal/caddy/caddy.go:71-87 | a rendered site answers for exactly its own identity and its aliases |
| `Rotation.Rotator.Rekey` | internal/caddy/rotation.go:36-42 | works exactly if there is a key for every device; the devices are as many and in the same order, and device i keeps everything but its key, which is that of secret i |
| `Rotation.Rotator.Credentials` | internal/caddy/rotation.go:49-57 | works exactly if every secret is well formed; credential i is device i's identifier, name and secret under the new identity |
| `Rotation.Rotator.Prepare` | internal/caddy/rotation.go:87-105 | works exactly if the state renders and its steps work; the alias render covers both identities before anything switches |
| `Rotation.Rotator.Settle` | internal/caddy/rotation.go:112-123 | Authelia and the final render follow Tor, covered throughout |
| `Rotation.Rotator.Forward` | internal/caddy/rotation.go:87-124 | done exactly if the state renders and every step works, and then stands at the new identity; each failure leaves what the rollback needs; at every moment Caddy covers what Tor publishes; a crash at any file step is recoverable |
| `Rotation.Rotator.Rollback` | internal/caddy/rotation.go:58-83 | works if its steps do and gives back directory, Tor, Authelia and Caddy; with a backup the old identity is covered throughout if and only if the live configuration covers it at the start |
| `Rotation.Rotator.StageCandidate` | internal/caddy/rotation.go:32-57 | stages exactly when keys, stage, hostname and records allow it; device i has the key of secret i and credential i is its own; nothing else of the state changes but the identity |
| `Rotation.Rotator.Switch` | internal/caddy/rotation.go:58-125 | forward, or back with exactly one rollback |
| `Rotation.Rotator.Apply` | internal/caddy/rotation.go:31-125 | done exactly if it can be staged and rendered and every forward step works, with a key and a credential for each device from its own secret; otherwise, with every rollback step working, everything is as before unless exactly both renames of the activation failed; rolled back at most once; always recoverable |
| `Rotation.FinalRenderDropsOldIdentity` | internal/caddy/rotation.go:117-120 | after the final render the old identity gets no answer |
| `Control.RevokedKeys` | internal/control/manager.go:275-284 | the kept devices authorize exactly the clients without the revoked one |
| `Control.KeyOfDevice` | internal/control/manager.go:278-279 | each device is authorized under its own key |
| `Control.TorAdmitsExactly` | internal/tor/tor.go:176-224 | in step, Tor runs as the state's identity, publishes as it says, and lets in a key under an identifier if and only if a device or the pending one has both |
| `Control.AuthorizedIff` | internal/tor/tor.go:193-199 | the authorized clients are exactly the devices and the pending one, each with its key |
| `Control.AcknowledgedKeys` | internal/control/manager.go:264-267 | acknowledging changes no client |
| `Control.AcknowledgedValid` | internal/model/model.go:202-216 | acknowledging keeps a state valid if and only if there is room for a device and the clock is set |
| `Control.NotPending` | internal/control/manager.go:288-291 | revoking a device of a valid state takes one client away, pending or not |
| `Control.RevokedOnce` | internal/control/manager.go:275-284 | revoking takes exactly one device out of the list and leaves the others in place |
| `Control.RevokedClients` | internal/control/manager.go:275-291 | the clients after a revocation are the others |
| `Control.CredentialsOpen` | internal/caddy/rotation.go:36-57 | a device's credential ends in the secret of the key under which Tor lets it in |
| `Control.UnexpiredClients` | internal/control/manager.go:344-347 | dropping the pending device changes the clients if and only if it had expired |
| `Control.Manager.Commit` | internal/state/store.go:75-89 | an operation that keeps the identity commits whole or not at all, and the file always names that identity |
| `Control.Manager.SetPublication` | internal/control/manager.go:183-213 | not allowed exactly when the state would be invalid; committed exactly if every step works, and then torrc and Tor differ in the flag alone; refused with working compensations, everything agrees as before if and only if not a torrc write took effect, reported an error and made a difference; compensated exactly once if torrc was written, never when committed |
| `Control.Manager.Publish` | internal/control/manager.go:190-202 | works exactly if its steps do; otherwise working compensation leaves Tor as it was, and torrc too unless its write failed late |
| `Control.Manager.Admit` | internal/control/manager.go:240-248 | one client more in files and Tor exactly if the steps work; otherwise working compensation leaves none |
| `Control.Manager.Expel` | internal/control/manager.go:291-299 | one client less in files and Tor exactly if the steps work; otherwise working compensation puts it back |
| `Control.Manager.CreateDevice` | internal/control/manager.go:214-258 | not allowed exactly when not set up, one is pending, 64 exist or the record is invalid; committed exactly if nothing is in the way and every step works: Tor lets in the key of the new secret and nobody else it did not let in before, the credential ends in that secret, and the device can be acknowledged for 15 minutes; otherwise, with working compensation, everything agrees as before, compensated exactly once |
| `Control.Manager.AdmitAndCommit` | internal/control/manager.go:240-256 | apply, commit, compensate for one client more |
| `Control.Manager.ExpelAndCommit` | internal/control/manager.go:291-308 | apply, commit, compensate for one client less |
| `Control.Manager.AcknowledgeDevice` | internal/control/manager.go:259-270 | allowed exactly for the unexpired pending device; committed exactly if there is room, the clock is set and the write works; the device joins the list with its time, nothing else changes, and agreement holds though nothing outside is touched |
| `Control.Manager.RevokeDevice` | internal/control/manager.go:271-310 | allowed exactly for a device whose removal leaves a valid state; committed exactly if every step works, and then exactly that device is out of the list and Tor lets in exactly the others; otherwise working compensation leaves everything agreeing |
| `Control.Manager.Split` | internal/control/manager.go:274-284 | the devices without the identifier and the one that had it |
| `Control.Manager.ExpirePending` | internal/control/manager.go:311-341 | committed exactly if nothing had expired or every step works, and then Tor lets in exactly whom it did before, but for a pending device whose time is over |
| `Control.Manager.ReconcileTor` | internal/control/manager.go:342-365 | committed exactly if its steps work; after a failure whose compensation works Tor is in step if and only if not both a device had expired and the reload took effect while reporting an error |
| `Control.Manager.CommitReconcile` | internal/control/manager.go:358-363 | the state follows files and Tor exactly if written; otherwise they go back, exactly once |
| `Control.Manager.ComponentChange` | internal/state/store.go:159-195 | allowed exactly when the table and the setup allow the change; it takes effect on the table and the live configuration, or, with working compensation, on neither; refused, it is compensated exactly once, or nothing was applied because the changed state is invalid |
| `Control.Manager.CommitChange` | internal/state/store.go:181-194 | the state follows the live configuration exactly if written; otherwise the old one is applied exactly once |
| `Control.Manager.ApplyState` | internal/state/store.go:177-193 | the new configuration is live exactly if the state is valid and the step works; otherwise working compensation leaves the old one |
| `Control.Manager.ReconcileCaddy` | internal/control/manager.go:174-182 | works exactly if the state renders and the step works, and makes its configuration live |
| `Control.Manager.PlainChange` | internal/state/store.go:66-90 | session and token operations commit exactly if valid and written, and keep the agreement without touching a component |
| `Control.Manager.CaddyRestarts` | cmd/torkitten/main.go:63-69 | a restarted Caddy denies everything until the state's configuration is live again |
| `Control.Manager.RotateIdentity` | internal/control/manager.go:66-95 | allowed exactly when confirmed, set up, with devices and none pending; committed exactly if all steps work: agreement at the new identity, every device in its place with the key of its own secret, each credential ending in the secret of the key under which Tor lets its device in, sessions gone, covered throughout; refused once staged: rolled back exactly once, and with a working rollback everything equals its old value unless exactly both renames failed or the state write failed late; restartable, with the old or the generated files, unless it failed late, and then not |
| `Control.Manager.CommitRotation` | internal/control/manager.go:84-93 | the state follows the components exactly if it is written; otherwise exactly one rollback, which takes the components back if it works |
| `Control.Manager.PersistRotation` | internal/state/store.go:79-88 | a crash in the state write finds the old or the generated files ready for a restart, whichever the file names |
| `Control.Manager.Startup` | cmd/torkitten/main.go:38-117 | from whatever a run left it comes up if its steps work, with agreement, exactly the durable identity and, if sweeping works, no stage; anything else can be repeated |
| `Control.Manager.PrepareTor` | internal/bootstrap/bootstrap.go:52-61 | ensure, recover, reconcile and write in this order work if their steps do and no directory is in the way of a client file where startup settles, and leave exactly the durable identity, its clients and torrc, and no stage |
| `Control.Manager.BringInStep` | cmd/torkitten/main.go:108-117 | with the processes running, comes up exactly if its steps work |
| `Control.Manager.StageOwnerReset` | internal/control/manager.go:366-376 | allowed exactly with an owner and committed exactly if the write works; no session, token, bootstrap window or pending device is left and nothing is published, while identity, mappings and devices stay |
| `Control.Manager.Step` | internal/control/manager.go:66-376 | each command keeps agreement while up, keeps the plane up if its compensations work, brings it up if the steps of a startup work, and leaves everything ready for a startup, with exactly the old or the generated files, except after a late rotation write |
| `Control.Manager.Live` | internal/control/manager.go:66-376 | over every run the phases follow from the commands: up while compensations work, up again after every startup whose steps work, whatever happened before; agreement while up; exactly the old or a generated identity recoverable |
| `Control.ComesBackUp` | cmd/torkitten/main.go:38-117 | after a startup whose steps work and commands whose compensations work the plane is up |
| `Control.RestartsAfter` | internal/control/manager.go:183-365 | an operation on client files, wherever it stops, leaves everything ready for a restart |
| `Control.ChangedOnce` | internal/control/manager.go:106-160 | a change leads to one state only |
| `Control.InStepReconciles` | internal/tor/tor.go:200-209 | in step, nothing is in the way of the state's own client files |
| `Failures.StrandedRotation` | internal/tor/tor.go:283-289 | a run whose rollback works and leaves no active directory, ready for a restart |
| `Failures.LostIdentity` | internal/state/store.go:269-279 | a run whose rollback works and loses the identity the state file names |
| `Failures.StrayReload` | internal/control/manager.go:354-357 | a run whose compensation works and leaves Tor out of step |
| `Failures.StrayTorrc` | internal/control/manager.go:190-192 | a refused publication whose compensations work and whose torrc differs from the state |
| `Failures.StrandedComesBack` | internal/bootstrap/bootstrap.go:52-61 | the stranded rotation is repaired by a restart |
| `Control.Mutate` | internal/control/manager.go:96-160 | yields a set-up state exactly when the change is allowed, has its effect and no other, keeps the list in order |
| `Supervisor.StepInv` | internal/supervisor/supervisor.go:129-228 | every step keeps the invariant of child, record, wake token and command |
| `Supervisor.RunInv` | internal/supervisor/supervisor.go:129-228 | so does every run |
| `Supervisor.WorkerSafety` | internal/supervisor/supervisor.go:147-228 | at most one live child; a PID exactly for a recorded child; none after the loop returns |
| `Supervisor.CommandStaysPending` | internal/supervisor/supervisor.go:129-146 | a command after the generation read leaves a wake token until the generations are compared |
| `Supervisor.SettledObeysOrLost` | internal/supervisor/supervisor.go:147-228 | a settled worker watches against its last command exactly if that was a stop in the gap, and idles although told to run exactly if it was switched off after that command |
| `Supervisor.PastIsTheRun` | internal/supervisor/supervisor.go:147-228 | the recorded past is the last command, generation read and switching off of the run |
| `Supervisor.GapIsInThePast` | internal/supervisor/supervisor.go:151-157 | the stop in the gap as an event of the run |
| `Supervisor.RunPast` | internal/supervisor/supervisor.go:129-228 | in every run the worker stands to its past as the exceptions say |
| `Supervisor.StopInTheGapIsMissed` | internal/supervisor/supervisor.go:210-213 | a run in which a stop between shouldRun and the generation read is lost |
| `Supervisor.StartBeforeDisablingIsDropped` | internal/supervisor/supervisor.go:293-297 | a run in which a start is overridden by the ceiling |
| `Supervisor.StepBudget` | internal/supervisor/supervisor.go:147-209 | each step but a command spends the launches it makes from the budget, and a long life adds five at most |
| `Supervisor.StretchBound` | internal/supervisor/supervisor.go:147-209 | launches of a stretch without a command and those left never exceed those possible at its start and five for each long life in it |
| `Supervisor.GapReachesOneMore` | internal/supervisor/supervisor.go:191-199 | from the gap a stretch with k long lives can launch seven times and five times k |
| `Supervisor.RestartCeiling` | internal/supervisor/supervisor.go:147-209 | for every k, each stretch without a command from a reachable state in which k processes live over two minutes has at most six launches and five times k, if and only if the state is not in the gap |
| `Supervisor.CeilingIsReached` | internal/supervisor/supervisor.go:147-209 | for every k a run with k long lives that launches so often |
| `Supervisor.SwitchedOffAfterSix` | internal/supervisor/supervisor.go:191-206 | in every run, once an exit or a failed start is counted, the worker is switched off if and only if six or more have been counted of which only the first may have been a long life, with no newer command noticed since |
| `Supervisor.FailuresAreAStreak` | internal/supervisor/supervisor.go:191-200 | the failure count is the length of such a streak |
| `Supervisor.ShutdownCompletes` | internal/supervisor/supervisor.go:96-103 | from every state of a cancelled supervisor the loop can return, in twelve steps or fewer and with no process left |
| `Supervisor.SwitchedOffStaysOff` | internal/supervisor/supervisor.go:293-297 | after switching off nothing launches, and the worker stays off, until a command |
| `Supervisor.BackoffMonotone` | internal/supervisor/supervisor.go:319-325 | delays do not shrink and are at most 30 seconds |
| `Supervisor.BackoffDoubles` | internal/supervisor/supervisor.go:319-325 | the first delay is 250 milliseconds and each is twice the one before, up to 30 seconds |
| `Supervisor.BackoffInTheLoop` | internal/supervisor/supervisor.go:147-209 | the loop never waits more than 4 seconds |
| `UsagePool.StepInv` | third-party/caddy/usagepool.go:77-111 | every step of every handle keeps the invariant |
| `UsagePool.ReachableInv` | third-party/caddy/usagepool.go:77-111 | every interleaving keeps it |
| `UsagePool.CountIsUsers` | third-party/caddy/usagepool.go:80-92 | a pooled entry's count is its builders, waiters and holders, at least one |
| `UsagePool.DeleteFindsItsEntry` | third-party/caddy/usagepool.go:171-197 | Delete finds the holder's own entry, never goes below zero, and only the last user takes it out |
| `UsagePool.DestructIsSafe` | third-party/caddy/usagepool.go:179-188 | a destructed value is built, unused, unreachable and not destructed before |
| `UsagePool.FailureRemovesOwnEntry` | third-party/caddy/usagepool.go:97-107 | a failing constructor removes its own entry and no other |
| `UsagePool.AllReturnedMeansDestructedOnce` | third-party/caddy/usagepool.go:171-197 | once all is given back the pool is empty and each built value was destructed exactly once |
| `UsagePool.HandleMoves` | third-party/caddy/usagepool.go:77-111 | a handle that waits for nobody can take its next step; a waiter comes to hold a built value and gives up a failed one; whoever makes others wait does not wait |
| `UsagePool.EveryoneCanReturn` | third-party/caddy/usagepool.go:77-197 | no deadlock: from every state all calls can return and all holds be given back |
| `UsagePool.PoolCanBeEmptied` | third-party/caddy/usagepool.go:77-197 | every run can be continued to an empty pool with each built value destructed exactly once |
| `ConfigTree.Traverse` | third-party/caddy/admin.go:1201-1335 | the loop that moves a pointer down and edits there computes the recursive path operation, on success and on error |
| `ConfigTree.TurnAt` | third-party/caddy/admin.go:1204-1333 | one turn of the loop is one level of it |
| `ConfigTree.PutIntoNewObject` | third-party/caddy/admin.go:1309-1315 | nothing fails below an object PUT has created |
| `ConfigTree.ErrorKeepsTree` | third-party/caddy/admin.go:1159-1336 | an operation that returns an error leaves the tree as it was |
| `ConfigTree.GetKeepsTree` | third-party/caddy/admin.go:1226-1264 | reading changes nothing |
| `ConfigTree.WriteThenRead` | third-party/caddy/admin.go:1241-1296 | after PUT or PATCH the path holds the body |
| `ConfigTree.WritesTheHolder` | third-party/caddy/admin.go:1203-1333 | every operation changes the object or list that holds its target as it changes that alone, and fails exactly if it fails there |
| `ConfigTree.DeletedField` | third-party/caddy/admin.go:1297-1304 | a deleted field is gone |
| `ConfigTree.ChangedElement` | third-party/caddy/admin.go:1241-1251 | PUT inserts before the element and the later ones move down, PATCH replaces it, DELETE takes it out and the later ones move up |
| `ConfigTree.PostedElement` | third-party/caddy/admin.go:1231-1240 | POST by way of any element appends to the list |
| `ConfigTree.FieldSucceeds` | third-party/caddy/admin.go:1259-1307 | on a field PUT works if and only if it is absent, PATCH and DELETE if and only if it is there, POST unless elements of something else than a list are to be appended |
| `ConfigTree.ElementSucceeds` | third-party/caddy/admin.go:1212-1254 | on an element PUT works if and only if the index is canonical and at most the length, the others if and only if the element is there |
| `ConfigTree.PutMakesTheWay` | third-party/caddy/admin.go:1309-1315 | PUT always works where the way has to be made |
| `ConfigTree.PostedField` | third-party/caddy/admin.go:1265-1280 | POST appends to a list and sets any other field |
| `ConfigTree.WritesNothingElse` | third-party/caddy/admin.go:1159-1336 | paths that part at a key, at an index on the way, or at a patched index keep their values |
| `ConfigTree.TagsAreIds` | third-party/caddy/caddy.go:290-327 | the tags are exactly the objects that carry an ID, with the walks to them |
| `ConfigTree.IndexObjects` | third-party/caddy/caddy.go:290-327 | succeeds exactly when every ID is well formed, unique and free, and then adds exactly the tags |
| `ConfigTree.Config.Change` | third-party/caddy/caddy.go:158-276 | changes exactly when every check passes, and never for an If-Match that is malformed or stale; otherwise nothing changes; tree, encoded copy, index and running config always describe one configuration; other keys of the raw tree are kept |
| `ConfigTree.StripTakesIds` | third-party/caddy/admin.go:1338-1355 | what runs is the tree without its ID fields and otherwise the same, part by part |
| `Decimal.AtoiItoa` | third-party/caddy/admin.go:1143-1149 | printing and parsing an index is a round trip |
| `Decimal.CanonicalIndex` | third-party/caddy/admin.go:1139-1151 | a text is accepted as an index if and only if it is how that index is printed |
| `Tokens.BucketInRange` | internal/apitoken/token.go:104-122 | the bucket stays between 0 and 20 and was last filled at the last event |
| `Tokens.WindowPotential` | internal/apitoken/token.go:104-122 | grants plus what is left are bounded over every window |
| `Tokens.RateBound` | internal/apitoken/token.go:104-139 | over every window at most 20, plus 20 for every loss of the bucket, plus one per second are granted |
| `Tokens.GrantedIffWithinTheRate` | internal/apitoken/token.go:104-122 | a call is granted if and only if with it no window since the bucket was last lost has more than 20 grants and one per second |
| `Tokens.GrantedAfterASecond` | internal/apitoken/token.go:111-117 | a second after any other call a call is granted |
| `Tokens.Bursts` | internal/apitoken/token.go:104-139 | histories that reach that bound |
| `Tokens.Spree` | internal/apitoken/token.go:35-139 | a run of the manager that reaches it |
| `Tokens.PlainBoundIffBucketKept` | internal/apitoken/token.go:104-139 | 20 plus one per second holds if and only if no revocation and no restart took the bucket on the way |
| `Tokens.Manager.Restart` | internal/apitoken/token.go:35-37 | records stay, buckets are gone |
| `Tokens.Manager.Run` | internal/apitoken/token.go:39-139 | over every run no identifier revoked before is authorized, and none at or after the end of its token; records change in their last use only |
| `Tokens.TracksEvent` | internal/apitoken/token.go:104-139 | the stored buckets are what their histories make them |
| `Tokens.HasScope` | internal/apitoken/token.go:141-148 | a scope is granted by itself, and reading by writing |
| `Tokens.Manager.Allow` | internal/apitoken/token.go:104-122 | grants exactly as the token's history says and adds one call to it |
| `Tokens.Manager.Scan` | internal/apitoken/token.go:83-92 | one unit at most is spent, because identifiers are unique |
| `Tokens.Manager.Authorize` | internal/apitoken/token.go:74-102 | authorizes exactly an accepted, granted and stored call; notes the use of that one token, which has not expired, and changes nothing else; never for a revoked identifier |
| `Tokens.Manager.Create` | internal/apitoken/token.go:39-72 | adds exactly the new record, exactly when name, lifetime, scopes and count allow it; a text is then accepted under its identifier if and only if it has the digest of the new token, for the scopes asked for, both by default, and before its lifetime ends |
| `Tokens.Manager.Revoke` | internal/apitoken/token.go:124-139 | the record goes exactly if the write succeeds, the bucket always |
| `Sessions.GoodIssue` | internal/localsession/session.go:67-83 | a new session starts the chain of its cookie |
| `Sessions.GoodUse` | internal/localsession/session.go:104-107 | a use extends an unbroken chain |
| `Sessions.FreshIsChain` | internal/localsession/session.go:153-161 | a stored session is kept if and only if a use now continues the chain of uses: within 30 minutes of the last and 12 hours of the first |
| `Sessions.UsableIsChain` | internal/localsession/session.go:101-107 | so a cookie may be used if and only if its session is stored and the use continues its chain |
| `Sessions.RoomIsTheOldest` | internal/localsession/session.go:79-82 | only the oldest usable session makes room, and only if there are 64 |
| `Sessions.UseStep` | internal/localsession/session.go:101-107 | pruning and noting a use give a valid list exactly if the session was usable, and then extend its chain |
| `Sessions.Manager.Create` | internal/localsession/session.go:73-90 | at most 64 sessions: those that may still be used, without the oldest if there are 64, and the new one with its times, whose cookie then authenticates; gone cookies stay gone |
| `Sessions.Manager.Authenticate` | internal/localsession/session.go:91-116 | authenticates if and only if the cookie is stored, the use is stored, and it continues the chain of the cookie's uses, no gap over 30 minutes and none 12 hours after the first; it can then be used again as long as that lasts; of the other cookies exactly those that may be used stay |
| `Sessions.Manager.Revoke` | internal/localsession/session.go:126-137 | exactly that session is gone, and it stays gone |
| `Sessions.Manager.RevokeAll` | internal/localsession/session.go:138-143 | all are gone and stay gone |
| `Sessions.Manager.Run` | internal/localsession/session.go:73-143 | over every run no cookie that was gone before authenticates |
| `SignOut.RotateAndSignOut` | internal/control/manager.go:78-79 | after a committed rotation no earlier cookie ever authenticates |
| `Sessions.Manager.Compact` | internal/localsession/session.go:153-161 | exactly the sessions that stay, in order |
| `Model.TagsSeparate` | internal/model/model.go:157-191 | tagged keys never meet prefixes or other tags |
| `Model.ValidateMappings` | internal/model/model.go:158-166 | accepts exactly valid mappings with distinct prefixes |
| `Model.ValidateDevices` | internal/model/model.go:202-216 | accepts exactly valid devices with distinct identifiers, pending included |
| `Model.ValidateSessions` | internal/model/model.go:170-178 | accepts exactly valid sessions with distinct identifiers |
| `Model.ValidateTokens` | internal/model/model.go:179-192 | accepts exactly valid tokens with distinct identifiers |
| `Model.Validate` | internal/model/model.go:144-200 | the one shared table accepts exactly the states whose kinds are each valid and unique on their own |
| `Routing.Render` | internal/caddy/caddy.go:51-108 | succeeds exactly for a valid state, safe renderer and proper aliases, and builds the configuration |
| `Routing.HostInjective` | internal/model/model.go:137-142 | a host name determines its identity and prefix |
| `Routing.LauncherRoute` | internal/caddy/caddy.go:86-95 | an identity's own host reaches the portal on its paths and otherwise the launcher behind Authelia |
| `Routing.MappingRoute` | internal/caddy/caddy.go:96-104 | an enabled mapping's host reaches its protocol and port, only behind Authelia and without client-sent identity headers |
| `Routing.UnknownHostRoute` | internal/caddy/caddy.go:105-106 | every other host gets 404 |
| `Routing.OrderDoesNotMatter` | internal/caddy/caddy.go:69-78 | the order of mappings and aliases makes no difference |
| `Routing.ConfigFrame` | internal/caddy/caddy.go:51-108 | sessions, tokens, devices, pending and publication make no difference |
| `Routing.LauncherLinksWork` | internal/caddy/caddy.go:116-125 | every link of the launcher reaches the mapping it names |
| `Routing.LauncherListsEnabled` | internal/caddy/caddy.go:116-125 | the page at the identity's host lists the enabled mappings, all and no others, each with its address |
| `Routing.NoForgedHeaders` | internal/caddy/caddy.go:49 | of the client's headers, whatever the host, exactly the nine that speak for Authelia or a proxy do not get through |
| `Mappings.TableDetermines` | internal/control/manager.go:114 | lists in order with the same table are the same list |
| `Mappings.CreateMapping` | internal/control/manager.go:106-117 | inserts into the table exactly when the prefix is free; the list is in order |
| `Mappings.UpdateMapping` | internal/control/manager.go:118-134 | renames in the table exactly when old is there and new is free; the list is in order |
| `Mappings.EnableMapping` | internal/control/manager.go:135-145 | switches one entry exactly when it is there |
| `Mappings.DeleteMapping` | internal/control/manager.go:146-160 | the compaction in place removes exactly that entry and keeps the order |
| `Mappings.CreateThenDelete` | internal/control/manager.go:106-160 | creating and deleting gives back the same list |
| `Text.SortForgetsOrder` | internal/caddy/caddy.go:70 | sorting by a key that tells elements apart depends on the elements only |
| `Text.LessAtFirstDifference` | internal/caddy/caddy.go:70 | the order of texts is that of their first different characters, a prefix coming first |

## Left out

- The first start, before a service identifier is stored: `Control` begins with an identity in the state.
- Operations after a compensation that was not clean, until the next restart: agreement is not claimed there, so `Live` does not run them.
- StateStore.Store.Transition: says whether the rollback is to be run; running it, exactly once, is stated by each operation of `Control`.
- ConfigTree.Traverse: pointers into nested maps and slices are modelled on values with the way back to the root, so aliasing between the tree and other holders of its parts is not captured.
- ConfigTree.WriteThenRead: not for elements of a list that is itself an element, where the traversal performs no operation.
- ConfigTree.WritesTheHolder: not where PUT makes the way to its target; `PutMakesTheWay` and `WriteThenRead` cover that.
- ConfigTree.IndexObjects: index paths are lists of steps, not joined text, because keys that contain a slash make the text ambiguous; number IDs are their text.
- ConfigTree.Config.Change: the encoded copy is represented by the value it encodes.
- Control.Manager.Split: the slice filter is modelled on sequences; reuse of the backing array is shown for `Mappings.DeleteMapping`.
- Sessions.Manager.Compact: modelled on sequences in the same way.
- Supervisor health checks, log lines, signals and the five-second kill: a child's exit is a step of the environment.
- The Authelia HTTP client, the Tor control dialogue, the Caddyfile adapter and the text of Caddyfile, torrc and YAML: each is a step that succeeds or fails, or a value.
- Cryptography, encodings and key generation: parameters or abstract functions.
- File permissions, ownership and fsync ordering.
- HTTP handlers, templates, cookies and CSRF checks, onboarding pages, QR images, JavaScript.
- The pool's LoadOrStore and Range, read-only views and log writers: they add easy members or another protocol.
