# Verified models of acme-proxy

acme-proxy is an ACME server that fronts other certificate authorities. This project models the parts of it
where being right is not obvious from reading one function, and proves what they promise.

- **Listener, RoleListener** — the accept loop of one role: a task that owns a replaceable socket, a queue of
  socket commands, a published TLS mode, 256 slots reserved before accepting, and handshakes that carry a slot
  with them. `Listener` is the transition system over every interleaving. `RoleListener` is the code as an object
  updated in place, always where a run of that system has brought it, so its methods promise what runs promise.
- **AtomicFile, Pemfile** — replacing a file by writing a scratch file and renaming it. `AtomicFile` has any number of
  writers, planted files and links, write-back in any order and power loss at any step. `Pemfile` is the call itself,
  proved to be a run of that protocol.
- **ScriptRunner** — a child process, three bounded pipes and four joined futures.
- **JobTable, JobQueue, JobExclusion, JobBudget, JobNews, JobSchedule, JobPermits** — the durable job queue: guarded
  SQL statements; any number of runners that claim, extend, report, time out, crash and stop; whether a job is executed
  twice at once; how often it is attempted; telling a handler its job is given up; when a job runs, is reclaimed and is
  deleted; and the pool of job slots.
- **Base64Url, CertId, NestedJws** — certificate identifiers and serials; key rollover and external account
  binding over an abstract signature scheme.
- **ClientAddress** — which address a request came from.
- **MetricLabels, Metrics** — label escaping and counters under concurrent requests.
- **Truncate, Palette, Render, RenderLayout, RenderReadBack** — cutting UTF-8, colour, the lines and details the command
  line prints, and reading them back.
- **RedactUrl, ReleaseLines** — hiding a password in a URL; choosing the tags a book is built from.
- **Prelude, Strings** — the standard library operations the code is written with.

Concurrency is modelled as runs: `Enabled` says what can happen in a state, `Step` what it does, `Run` applies a
sequence of events. A theorem about a run holds for every interleaving of every length. Some fields are history kept
to state theorems with; each module says which.

Inputs that come from outside are parameters: IP address syntax (`IpParser`), JSON decoding, signatures and MACs
(`Foreign`), how a moment is written (`Stamp`), the time, and which connection, byte count or inode comes next.

## Where the code differs from what is said of it

- The reference (doc/src/configuration/reference.md:515-519), the example configuration and a comment on
  `claim_next` say that a job which kills its process still exhausts `max_attempts`. No claim looks at the counter,
  so it does not: `JobBudget.CrashLoopIsUnbounded` gives the runs. `JobBudget.BudgetKeptUnlessOverspent` says exactly
  which steps break the documented bound for a job: those that make it ready after its budget is spent, which a
  reclaim or a release does without looking. `JobBudget.ClaimsAreBounded` is the bound that always holds.
- A comment on `retire` says a handler is told exactly once that its job is given up. It is told at most once
  (`JobNews.ToldAtMostOncePerLife`). A process that dies between the write and the call, or never hears that the
  write landed, leaves it untold for good (`JobNews.NewsCanBeLost`), and that is the only way
  (`JobNews.ToldUnlessSilenced`).
- A lease is meant to keep a job to one executing attempt. An executing attempt loses its lease in exactly four ways: a
  reclaim, a stop's release, its own report that its time ran out (its code is stopped only later), and the report of
  another attempt of the same runner on the same job (`JobExclusion.LeaseKeptUnlessEnded` per step,
  `JobExclusion.CoveredIffNeverLost` over runs). A second attempt begins exactly when the job is claimed while one
  executes, which is then one that lost its lease (`JobExclusion.OneAttemptUnlessOverlapped`,
  `JobExclusion.OverlapFollowsLoss`). `ReleaseCanOverlap`, `TimeoutCanOverlap` and `StaleReportCanOverlap` are runs.
- The lease guard compares the runner, not the claim, so a report can land on a lease that is not its attempt's own.
  `JobExclusion.ReportLandsIff` says exactly when, and `JobExclusion.StaleReportCanLand` is a run.
- `redact_url` ends the authority at the first `/`, so it redacts a password if and only if there is no `/` in it
  (`RedactUrl.RedactedIffNoSlash`, `RedactUrl.SlashKeepsThePassword`).
- The palette's comments say a format width counts bytes. Rust's counts characters, and so does `Palette.Pad`.
- `release_lines` depends on the order of the tags when one release is tagged twice, with and without leading zeros
  (`ReleaseLines.OrderIsIrrelevantIffUnambiguous`, `ReleaseLines.LeadingZerosAreAmbiguous`).
- `strip_ansi` repeats the text before an escape that has no `m`. `Palette.Strip` does too; no rendering of a row without escapes in it contains one.

## Model

| member | source | states |
|---|---|---|
| Listener.PermitsConserved | crates/net/src/listener.rs:279-377 | in every reachable state free slots, the loop's permit, handshakes and queued connections add up to 256 |
| Listener.StepConserves | crates/net/src/listener.rs:294-376 | every single step keeps that sum: commands, backoff, failed and timed-out handshakes all give their permit back |
| Listener.SocketsFollowCommands | crates/net/src/listener.rs:313-341 | the served socket and published address are the fold of a prefix of the commands in send order, the rest are still queued in order, no command is lost, and no connection comes from a socket that a command already sent replaces or closes |
| Listener.ApplyExtendsFold | crates/net/src/listener.rs:438-460 | applying the oldest command extends that fold by exactly that command |
| Listener.LastReadableAddress | crates/net/src/listener.rs:438-460 | the published address is that of the last served socket whose address could be read, before it the first socket's, else the unbound one |
| Listener.EveryConnectionHasOneFate | crates/net/src/listener.rs:343-376 | every accepted connection is exactly once in a handshake, queued, delivered or dropped |
| Listener.DeliveredUnderTheModeRead | crates/net/src/listener.rs:343-376 | a connection is delivered plain exactly when the TLS mode read after its accept was none, otherwise under that acceptor, whatever is published later, with the peer it was accepted from |
| Listener.TaskOutlivesListener | crates/net/src/listener.rs:280-304 | the accept loop ends only after its listener is dropped, so a living listener never sees its channel closed |
| Listener.AcceptRefreshesLocalAddr | crates/net/src/listener.rs:470-497 | after accept returns, the local address is the last one the applied commands published |
| Listener.PendingCommandComesFirst | crates/net/src/listener.rs:313-325 | with a command pending the accept loop's next step applies it or comes nearer to it, and accepts nothing |
| Listener.RebindIsNeverStuck | crates/net/src/listener.rs:279-377 | a pending command waits only while all slots are taken, and then a handshake or the receiver can move |
| RoleListener.Polled | crates/net/src/listener.rs:313-325 | a poll takes a command if and only if one is pending, gives the command channel up if and only if it is empty and every handle is gone, and accepts a peer, or backs off, if and only if nothing comes before it and the socket has that peer, or refuses; it only takes steps that are enabled |
| RoleListener.Role.constructor | crates/net/src/listener.rs:256-278 | spawning begins a run of the transition system with the given socket and TLS mode and the socket's address, if it can be read |
| RoleListener.Role.SendCommand | crates/net/src/listener.rs:168-178 | serve and close are a step of the run; once everything sent is applied, this command alone decides what is served; nothing in flight changes |
| RoleListener.Role.Publish | crates/net/src/listener.rs:181-183 | a new TLS mode leaves every connection already accepted under the mode of its accept |
| RoleListener.Role.DropHandle | crates/net/src/listener.rs:327-341 | with the last handle gone, what was sent through it is still queued in order |
| RoleListener.Role.DropListener | crates/net/src/listener.rs:294-304 | with the listener gone, what was queued for it is dropped and its slots come back |
| RoleListener.Role.Apply | crates/net/src/listener.rs:438-460 | a command replaces the served socket and republishes the address only when it can be read |
| RoleListener.Role.BeginPass | crates/net/src/listener.rs:279-292 | a pass parks only when there is no socket, every handle is gone and every command ever sent has been applied |
| RoleListener.Role.AwaitSlot | crates/net/src/listener.rs:294-304 | a slot is reserved if and only if the receiver lives and fewer than 256 connections are in flight; the loop ends if and only if the receiver is gone |
| RoleListener.Role.TakePending | crates/net/src/listener.rs:327-333 | the oldest command not yet applied is applied: what is served is the fold of one command more |
| RoleListener.Role.GiveUpCommands | crates/net/src/listener.rs:327-341 | the command channel is given up only with no command left unapplied |
| RoleListener.Role.TakeConnection | crates/net/src/listener.rs:343-376 | a connection is accepted from the socket that everything sent so far leads to |
| RoleListener.Role.Poll | crates/net/src/listener.rs:313-376 | one poll of the biased select takes a pending command first, then notices that every handle is gone, then takes what the socket has, each if and only if its turn comes; it accepts only on the newest socket |
| RoleListener.Role.EndBackoff | crates/net/src/listener.rs:337-341 | a failed accept gives its permit back after its pause, with nothing accepted meanwhile |
| RoleListener.Role.Unpark | crates/net/src/listener.rs:280-292 | a parked loop ends if and only if its listener is gone |
| RoleListener.Role.EndHandshake | crates/net/src/listener.rs:355-376 | a handshake that succeeds, fails or times out leaves its connection queued or dropped, and in no third place |
| RoleListener.Role.Accept | crates/net/src/listener.rs:470-493 | the oldest ready connection is handed out, served as the TLS mode at its accept says, and the local address is the last published one |
| AtomicFile.ScratchIsInjective | crates/core/src/pemfile.rs:140-144 | two calls share a scratch name only if they share target and process |
| AtomicFile.StepKeepsCore | crates/core/src/pemfile.rs:168-182 | every step, also a planted file, a write-back or a power loss, keeps each call holding only an inode it made, filled with a prefix of its own bytes |
| AtomicFile.TargetsChangeOnlyByRename | crates/core/src/pemfile.rs:168-182 | nothing but a call's rename and a power loss changes what a target names |
| AtomicFile.TargetsAreNeverTorn | crates/core/src/pemfile.rs:137-184 | after any interleaving every target holds its starting content or all the bytes of one call on it that reached its rename, at its mode, and so does the disk |
| AtomicFile.RenamedInodeIsOwn | crates/core/src/pemfile.rs:169-182 | a finished call renamed an inode that this call created, at the mode it asked for, that no other call holds |
| AtomicFile.CallTouchesOnlyItsInode | crates/core/src/pemfile.rs:168-182 | a step of a call changes no inode but its own, whatever link stands at the scratch name |
| AtomicFile.RenameFailsOnlyOnADirectory | crates/core/src/pemfile.rs:182-182 | I/O errors aside, the rename of a synced call is refused if and only if the target is a directory |
| AtomicFile.SyncComesFirst | crates/core/src/pemfile.rs:177-182 | when a name reaches the disk and power fails, the target holds all the bytes if they were synced before the rename, and otherwise can be empty |
| AtomicFile.RenameCanBeLost | crates/core/src/pemfile.rs:177-184 | a run in which a power loss undoes a call that has returned, since the directory is not synced |
| AtomicFile.RenameCanLast | crates/core/src/pemfile.rs:177-184 | a run in which the name reached the disk and the power loss leaves all the bytes |
| AtomicFile.SharedScratchTears | crates/core/src/pemfile.rs:140-144 | without that discipline, two calls that share target and process can leave a target that is neither as it was nor a complete write |
| AtomicFile.EndedCallsDoNotCount | crates/core/src/pemfile.rs:140-144 | calls that have ended stand in no later call's way |
| Pemfile.Volume.WriteAtomic | crates/core/src/pemfile.rs:137-184 | from any file system, the call is a run of the protocol; on success the target names a new inode holding all the bytes here and on disk at the mode; on failure the target is as it was; no other name or inode changed; a directory at the scratch path or at the target is an error |
| Pemfile.OneCallNeverTears | crates/core/src/pemfile.rs:137-184 | so after a call, or a power loss during it, the target holds its starting content or all the bytes |
| Pemfile.Volume.WritePrivateKey | crates/core/src/pemfile.rs:90-104 | a key file is owner-only from its creation, with no bit set for group or others; an existing path is refused, and then nothing changes; a file left by an I/O error is owner-only and holds a prefix |
| Pemfile.Volume.OpenNew | crates/core/src/pemfile.rs:169-176 | creates a new inode at the mode, or fails and changes nothing when the name exists |
| Pemfile.Volume.Fill | crates/core/src/pemfile.rs:177-180 | the write loop puts all the bytes into the inode and syncs them, or fails having written a prefix, and is a run of the protocol |
| Pemfile.Volume.MoveOver | crates/core/src/pemfile.rs:182-182 | takes the rename step or fails and changes nothing |
| ScriptRunner.CaptureIsExact | crates/core/src/script_hook.rs:193-241 | a finished run captured exactly what the child wrote, within the limit, after the child ended; it says that feeding failed if and only if not all of the payload was written, and then the child had closed its end; a too-large outcome names a stream the child overran; no reader holds more than limit plus one bytes; the child read a prefix of the payload |
| ScriptRunner.FeedFailedIff | crates/core/src/script_hook.rs:193-214 | over every run feeding ends in failure if and only if a write failed along it |
| ScriptRunner.StdinFailureIsReported | crates/core/src/script_hook.rs:193-241 | a finished run reports a failed stdin if and only if a write failed along it, and otherwise all of the payload was written |
| ScriptRunner.ChildReadsWhatItAsksFor | crates/core/src/script_hook.rs:193-214 | on every schedule a child that has ended read as many bytes of the payload as it asked for, from the front, or all of it |
| ScriptRunner.NothingFedAfterClose | crates/core/src/script_hook.rs:193-214 | once the child has closed its stdin nothing more is fed to it |
| ScriptRunner.NeverDeadlocks | crates/core/src/script_hook.rs:171-241 | in every unfinished reachable state the child or a future can move, for every program, payload and pipe capacity |
| ScriptRunner.StepsRunOut | crates/core/src/script_hook.rs:171-241 | every step lowers the measure of the work left |
| ScriptRunner.RunsAreFinite | crates/core/src/script_hook.rs:171-241 | no run is longer than the measure of its start |
| ScriptRunner.ReachesOutcome | crates/core/src/script_hook.rs:171-256 | every reachable state can be run to an outcome without the deadline, and it is finished if and only if both streams fit, whether or not feeding stdin failed |
| ScriptRunner.NoDeadlineNoTimeout | crates/core/src/script_hook.rs:243-255 | only the deadline gives a timeout |
| ScriptRunner.TimesOutIffDeadline | crates/core/src/script_hook.rs:243-255 | a run times out if and only if the deadline passes before its outcome, which it can at any moment |
| ScriptRunner.WaitingFirstDeadlocks | crates/core/src/script_hook.rs:171-192 | waiting for the child before draining leaves only the deadline for a child that fills a pipe |
| ScriptRunner.ReadCapped | crates/core/src/script_hook.rs:297-318 | returns all the bytes when they fit the limit and the limit as an error otherwise |
| JobTable.EnqueueIsSound | crates/store/src/job.rs:149-192 | an insert that ignores conflicts never leaves two live rows with one identity |
| JobTable.SettleIsSound | crates/store/src/job.rs:354-383 | settling keeps the identity index and the lease columns well formed |
| JobTable.ReviveIsSound | crates/store/src/job.rs:646-672 | reviving keeps the identity index, refusing a row whose identity is taken |
| JobTable.Jobs.Enqueue | crates/store/src/job.rs:149-192 | a job is queued if and only if its id is new and no ready or running row has its kind and key |
| JobTable.Jobs.ClaimNext | crates/store/src/job.rs:209-261 | claims a ready row of one of the kinds that is due, of these one with the earliest run time and among them the earliest creation; answers none, and changes nothing, if and only if none is eligible or another runner took the row first |
| JobTable.Jobs.Settle | crates/store/src/job.rs:354-383 | a settlement lands if and only if the runner holds the lease, and otherwise changes nothing; after one that lands the job can be claimed if and only if it was put back, its time has come and its kind is asked for |
| JobTable.Jobs.ReviveRow | crates/store/src/job.rs:646-672 | a failed row is revived; one that is not failed is answered with nothing, and one whose identity is taken with the database error |
| JobQueue.IdentityIsUnique | crates/store/src/job.rs:149-192 | in every reachable state at most one live job has an identity, and a row has a lease exactly while it runs |
| JobQueue.LeasesHold | crates/store/src/job.rs:209-261 | every running row is leased to the runner of its job's last claim, as that claim wrote it |
| JobExclusion.ReportLandsIff | crates/store/src/job.rs:354-383 | a report lands if and only if the job is running under a claim of the same runner, and on a lease not its own if and only if that claim is a later one |
| JobExclusion.StaleReportCanLand | crates/store/src/job.rs:354-383 | a run in which a runner's old attempt settles the row its newer attempt holds |
| JobExclusion.LeaseKeptUnlessEnded | crates/store/src/job.rs:354-434 | an attempt that goes on executing keeps its lease through a step if and only if the step is not a reclaim or release that takes it, its own report that its time ran out, or the report of another attempt of the same runner on the same job |
| JobExclusion.CoveredIffNeverLost | crates/jobs/src/jobs/runner.rs:426-451 | over every run an executing attempt holds its lease if and only if no step along it ended that lease in one of those ways |
| JobExclusion.OneAttemptUnlessOverlapped | crates/store/src/job.rs:209-261 | a job goes from one executing attempt to two if and only if it is claimed while an attempt of it executes |
| JobExclusion.OverlapFollowsLoss | crates/store/src/job.rs:209-261 | an attempt still executing when its job is claimed again has lost its lease in one of those ways |
| JobExclusion.OneAttemptIffNeverOverlapped | crates/jobs/src/jobs/runner.rs:330-411 | over a whole run a job is executed once at a time throughout if and only if it is never claimed while it executes |
| JobExclusion.OneAttemptAtATime | crates/jobs/src/jobs/runner.rs:330-411 | a job whose leases all outlive their attempts is executed once at a time, whatever happens to other jobs |
| JobExclusion.ReleaseCanOverlap | crates/jobs/src/jobs/runner.rs:611-641 | a run in which a stop hands a job on while its attempt executes |
| JobExclusion.TimeoutCanOverlap | crates/jobs/src/jobs/runner.rs:426-451 | a run in which an attempt whose time ran out still executes when another runner claims the job |
| JobExclusion.StaleReportCanOverlap | crates/store/src/job.rs:354-383 | a run in which an old attempt's report puts a job back and another runner claims it from under the newer attempt |
| JobBudget.AttemptsAreBounded | crates/jobs/src/jobs/runner.rs:455-552 | the counter of a live job is at most its budget plus one for each attempt that lost its lease unreported, and less than that while it waits |
| JobBudget.CounterCountsClaims | crates/store/src/job.rs:209-261 | the counter is the number of claims since the job was queued, rescheduled or revived, from one short of the budget if revived |
| JobBudget.LostCountsLosses | crates/store/src/job.rs:354-434 | the attempts that lost their lease unreported are those whose job was reclaimed, released or settled by another attempt's report since its counter was set |
| JobBudget.ClaimsAreBounded | crates/store/src/job.rs:646-672 | a live job has been claimed at most as often as its budget says, once if it was revived, and once more for each lease taken from an attempt that had not reported |
| JobBudget.BudgetKeptUnlessOverspent | crates/store/src/job.rs:390-434 | a step keeps a job under its budget if and only if it does not make the job ready after its budget is spent |
| JobBudget.OwnReportsNeverOverspend | crates/jobs/src/jobs/runner.rs:525-537 | a report does that only when it is stale: the counter is looked at on a claim of its own |
| JobBudget.BudgetHoldsIffNeverOverspent | crates/store/src/job.rs:202-261 | over a whole run the documented bound holds of a job throughout if and only if no step overspends its budget |
| JobBudget.CrashLoopIsUnbounded | crates/store/src/job.rs:202-261 | for any job, budget, lease and number there is a run of claims by new runners, crashes and expiries after which the job is ready again with that many attempts |
| JobNews.ToldAtMostOncePerLife | crates/jobs/src/jobs/runner.rs:559-579 | over every run each life of a failed job was ended by exactly one attempt, and its news is on its way, told or silenced, never told again |
| JobNews.ToldUnlessSilenced | crates/jobs/src/jobs/runner.rs:559-579 | a failed job's handler was told or is about to be if and only if neither a crash nor a lost answer fell between the abandonment and its news |
| JobNews.NewsCanBeLost | crates/jobs/src/jobs/runner.rs:559-579 | runs after which a failed job's handler is never told |
| JobSchedule.OutcomeDecides | crates/jobs/src/jobs/runner.rs:455-552 | a report that lands makes the job done exactly on success, ready at its next run time exactly when a new occurrence is due or another attempt is asked for with budget left and before the deadline, and failed exactly otherwise |
| JobSchedule.LifeCycle | crates/store/src/job.rs:209-434 | a job's status changes only by a claim, a landed report, a lease taken from it, a cancellation or a revival, and each leads to the status it says |
| JobSchedule.ClocksHold | crates/store/src/job.rs:209-434 | over every run a row's next run time, lease end and last write are those the events say, told without the table |
| JobSchedule.NeverClaimedEarly | crates/store/src/job.rs:209-261 | over every run a claim comes no earlier than the run time the events last set, and only for a kind the runner asked for |
| JobSchedule.ClaimsTheFirstDue | crates/store/src/job.rs:209-261 | of the jobs that are due and of a kind asked for, a claim takes one due first, and among these the oldest |
| JobSchedule.GoneForGood | crates/jobs/src/jobs/runner.rs:611-641 | over every run a runner that crashed or stopped claims nothing ever after |
| JobSchedule.ReclaimedIffEnded | crates/store/src/job.rs:390-409 | a reclaim takes a job from its runner if and only if the lease last granted or extended has ended |
| JobSchedule.CleanedIffOld | crates/store/src/job.rs:678-694 | a row is deleted if and only if a cleanup finds its job settled and last written before the cutoff |
| JobSchedule.PutBackWaits | crates/store/src/job.rs:302-319 | over every run a job put back to run at a time is not claimed again before then, unless an operator advances it |
| JobSchedule.OutlivesIff | crates/jobs/src/jobs/runner.rs:426-451 | code outlives its attempt from the step that left it running to the one that stops it or kills its process |
| JobSchedule.LeftInMidWork | crates/jobs/src/jobs/runner.rs:426-451 | a handler's code runs on after its attempt only when the attempt was given up, or timed out, while it executed |
| JobPermits.Permits.constructor | crates/jobs/src/jobs/runner.rs:93-98 | a new pool has every permit free |
| JobPermits.Permits.Resize | crates/jobs/src/jobs/runner.rs:101-113 | a pool grows to its target at once and shrinks to it as far as held permits allow |
| JobPermits.Permits.TryAcquire | crates/jobs/src/jobs/runner.rs:330-411 | a job starts if and only if fewer permits than the target are held |
| JobPermits.Permits.Return | crates/jobs/src/jobs/runner.rs:330-411 | a settled job's permit is free again |
| JobPermits.Permits.Drained | crates/jobs/src/jobs/runner.rs:611-641 | taking every issued permit succeeds if and only if no permit is out |
| Base64Url.DecodeEncode | crates/core/src/cert.rs:98-105 | every byte string decodes from its encoding |
| Base64Url.EncodeDecode | crates/core/src/cert.rs:192-212 | whatever decodes is the encoding of what it decodes to: no padding, no stray bits |
| Base64Url.SymbolsAreTheAlphabet | crates/core/src/cert.rs:98-105 | the symbols are, in order, the alphabet of section 5 of RFC 4648 |
| Base64Url.SextetsAreTheBits | crates/core/src/cert.rs:98-105 | the four symbol values of three bytes are their 24 bits, highest first |
| CertId.ParseIsInverseOfRender | crates/core/src/cert.rs:192-212 | a string is accepted as an identifier if and only if it is its rendering and neither half is empty |
| CertId.NormalizeUndoesPasting | crates/core/src/cert.rs:176-182 | a pasted serial normalises to a text if and only if it is that text with separators put in and letters in either case |
| CertId.SerialsAreFound | crates/core/src/cert.rs:151-182 | a pasted serial finds a stored one if and only if it is a spelling of it |
| CertId.SerialHexIsInjective | crates/core/src/cert.rs:151-153 | no two serials have the same stored form |
| CertId.SerialHexSpellsBytes | crates/core/src/cert.rs:151-153 | each byte is two lower-case hexadecimal digits, the high one first |
| NestedJws.SigningInputSplitsOneWay | crates/core/src/key_change.rs:127-138 | a signed string splits in one way only into a header and payload that decode |
| NestedJws.KeyChangeMeans | crates/core/src/key_change.rs:104-171 | a rollover to a key is accepted if and only if that key signed a header naming it and the URL and a payload naming the account and old key |
| NestedJws.KeyChangeRefusedForSignature | crates/core/src/key_change.rs:104-171 | a rollover is refused for its signature if and only if its header names the URL and its signature does not verify |
| NestedJws.KeyChangeBindsOneRequest | crates/core/src/key_change.rs:104-171 | one signed string is accepted for at most one URL, account and old key |
| NestedJws.ExternalAccountMeans | crates/core/src/eab.rs:76-121 | a binding is accepted as a credential's if and only if its header names that credential and the URL, its payload is the account key, and its tag is the MAC of both under that credential's secret |
| NestedJws.ExternalAccountRefusedForSignature | crates/core/src/eab.rs:76-121 | a binding that names the URL is refused for its signature if and only if its credential is not an active one, or it carries the account key and the tag is wrong |
| NestedJws.ExternalAccountBindsOneKey | crates/core/src/eab.rs:76-121 | one signed string is accepted for at most one URL, account key and credential |
| ClientAddress.UntrustedPeersAreTakenAtTheirSocket | crates/core/src/client.rs:74-79 | headers of a peer outside the trusted networks decide nothing |
| ClientAddress.ResolveWalksRightToLeft | crates/core/src/client.rs:74-103 | from a trusted peer the answer is the rightmost untrusted hop, else the leftmost hop, else the peer |
| ClientAddress.ForgedHopsAreIgnored | crates/core/src/client.rs:81-103 | any header lines in front of a list with an untrusted hop leave the answer as it was |
| ClientAddress.ForgedTextIsIgnored | crates/core/src/client.rs:81-103 | so does any text left of a comma in front of it |
| ClientAddress.LinesDoNotMatter | crates/core/src/client.rs:81-88 | how the same comma list is cut into header lines never changes the answer |
| ClientAddress.PaddingDoesNotMatter | crates/core/src/client.rs:81-88 | white space around the entries of a forwarded-for list never changes the answer |
| ClientAddress.ListDecides | crates/core/src/client.rs:74-103 | for a list whose entries all read as addresses, the answer is the rightmost of these outside the trusted networks, else the leftmost |
| ClientAddress.LastEntryDecides | crates/core/src/client.rs:74-103 | when the last entry, whatever white space is around it, reads as an address outside the trusted networks, that address is the answer |
| ClientAddress.OneLineLists | crates/core/src/client.rs:81-88 | a line of the configured header lists exactly its comma-separated entries |
| ClientAddress.OtherLinesDoNotMatter | crates/core/src/client.rs:81-88 | lines of other headers and values that are not text change nothing |
| ClientAddress.AnswerIsCanonical | crates/core/src/client.rs:74-103 | the answer is never an IPv4 address in its IPv6 form |
| ClientAddress.PortsAreStrippedOnlyWhenUnambiguous | crates/core/src/client.rs:110-132 | brackets or a single colon end the host; anything else is an address as it stands or none |
| ClientAddress.MappedNetworksMatchNothing | crates/core/src/client.rs:168-171 | a network written in IPv4-mapped form contains no address |
| ClientAddress.NetworkIsABlock | crates/core/src/client.rs:168-171 | a network contains an address if and only if it is of the same family and in the same aligned block of the size the prefix leaves free |
| ClientAddress.MappedAddressesAreUnmapped | crates/core/src/client.rs:163-165 | an IPv4 address in its IPv6 form is compared as the IPv4 address it is |
| ClientAddress.OnlyMappedAddressesChange | crates/core/src/client.rs:163-165 | every other address is left as it is |
| MetricLabels.LabelsReadBack | crates/jobs/src/metrics.rs:379-390 | a collector reads a value off a text if and only if the text is the escaped value and the closing quote |
| MetricLabels.EscapeIsInjective | crates/jobs/src/metrics.rs:379-390 | different values have different escapes |
| MetricLabels.EscapeLabel | crates/jobs/src/metrics.rs:379-390 | the loop computes the escape of the whole value |
| MetricLabels.NestedRoutesSplit | crates/jobs/src/metrics.rs:402-416 | a route under a profile splits back into that profile and that route |
| MetricLabels.SplitPathsJoinBack | crates/jobs/src/metrics.rs:402-416 | the two labels of any matched path put back together are the path; a path outside the profiles is its own route |
| Metrics.DurationsAndCountsAgree | crates/jobs/src/metrics.rs:199-215 | under any interleaving a route's histogram count is the sum of its status counters plus the calls between their two updates |
| Metrics.RunKeepsRequests | crates/jobs/src/metrics.rs:199-215 | a request series counts exactly the calls with those raw labels and status |
| Metrics.RunKeepsDurations | crates/jobs/src/metrics.rs:199-215 | a duration series counts exactly the calls with those raw labels, counted or in between |
| Metrics.AuditCountersMatchTheTrail | crates/jobs/src/metrics.rs:225-249 | the issuance counters equal the number of audit records with those raw labels |
| Metrics.Recorder.RecordRequest | crates/jobs/src/metrics.rs:199-215 | one call alone is an observation and the count of the same call |
| Metrics.Recorder.RecordAudit | crates/jobs/src/metrics.rs:225-249 | one record takes the audit step |
| Truncate.FitEndsAtLastBoundary | src/cli/render.rs:448-457 | the characters that fit end at the last boundary up to the limit, at most three bytes below it |
| Truncate.FitIsLongest | src/cli/render.rs:448-457 | a prefix fits if and only if it is no longer than the one kept |
| Truncate.CharReadsBack | src/cli/render.rs:448-457 | the bytes of a character stand for it and are as few as section 3 of RFC 3629 allows |
| Truncate.Cut | src/cli/render.rs:448-457 | the loop ends, and the bytes are those of the whole text or of the longest prefix that fits and an ellipsis |
| Palette.PaintOnlyInserts | crates/core/src/palette.rs:93-99 | painting only puts whole escape sequences around text |
| Palette.PaddedStatusKeepsItsRole | crates/core/src/palette.rs:143-157 | a padded status has the colour of the word, and the colour covers the padding |
| Palette.PaddingComesBeforePaint | crates/core/src/palette.rs:93-99 | painting after padding keeps the layout; padding after painting does if and only if there was nothing to pad |
| Palette.PaintShows | crates/core/src/palette.rs:42-99 | a painted text shows its role's colour once, whatever follows it |
| Palette.GoodWords | crates/core/src/palette.rs:143-157 | every word for what is as it should be has the good role |
| Palette.BadWords | crates/core/src/palette.rs:143-157 | every word for what went wrong or no longer holds has the bad role |
| Palette.BusyWords | crates/core/src/palette.rs:143-157 | every word for what is under way has the busy role |
| Palette.UnknownWords | crates/core/src/palette.rs:143-157 | every word for what is undecided has the unknown role |
| Palette.StrippingUndoesColour | src/cli/render.rs:878-890 | stripping a recoloured text with no escape of its own gives the plain text |
| Palette.StripAnsi | src/cli/render.rs:878-890 | the loop computes the stripped text |
| RenderLayout.ColourOnlyInserts | src/cli/render.rs:63-566 | for every renderer and every row, whatever its fields hold, colour only inserts whole escape sequences |
| RenderLayout.StrippedIsPlain | src/cli/render.rs:63-566 | for every renderer and every row with no escape in its fields, stripping the coloured rendering gives the plain one |
| RenderLayout.EveryColumnStands | src/cli/render.rs:63-364 | in every line renderer every column stands where the format widths put it, coloured or not, whenever the padded columns fit |
| RenderLayout.LinesShowWhatTheyMean | src/cli/render.rs:63-364 | every line shows, in order, exactly the colour of its status or event or urgency and that of what is noted at its end |
| RenderReadBack.LineReadsBack | src/cli/render.rs:63-364 | in every line renderer, coloured or not, each column says, but for padding, the field of the row it is about |
| RenderReadBack.LineEndsWithItsNote | src/cli/render.rs:148-302 | after its last column a line says its reason, revocation, replacement or shortened error if the row has one, and nothing else |
| RenderReadBack.AccountReadsBack | src/cli/render.rs:88-131 | from the text of a detail alone, every label reads back the field of the account, and nothing for one that was not recorded |
| RenderReadBack.AuditReadsBack | src/cli/render.rs:173-206 | the same for an audit entry |
| RenderReadBack.JobReadsBack | src/cli/render.rs:304-347 | the same for a job |
| RenderReadBack.UpstreamReadsBack | src/cli/render.rs:372-421 | the same for an upstream order |
| RenderReadBack.RelayReadsBack | src/cli/render.rs:425-445 | the same for the job under an upstream order |
| RenderReadBack.OrderReadsBack | src/cli/render.rs:492-548 | the same for an order: an unreadable expiry is left out, and a reason only with a revocation |
| RenderReadBack.AuthzReadsBack | src/cli/render.rs:549-555 | an authorization's line reads back its id, status and identifier |
| RenderReadBack.ChallengeReadsBack | src/cli/render.rs:556-563 | a challenge's line reads back its id, status and type |
| RenderReadBack.JobDetailIsBlocks | src/cli/render.rs:304-347 | a job's detail is its block and, if there is one, that of its upstream order under a heading |
| RenderReadBack.UpstreamDetailIsBlocks | src/cli/render.rs:425-445 | an upstream order's detail is its block and, if there is one, that of its relay job under a heading |
| Render.RenderBlock | src/cli/render.rs:513-548 | exactly the recorded fields are appended, one to a line under its label |
| Render.RenderAuthz | src/cli/render.rs:549-565 | an authorization is followed by its challenges in order |
| Render.RenderOrderDetail | src/cli/render.rs:492-566 | the loops append the heading, the recorded fields and the authorization tree |
| Render.ShortenCuts | src/cli/render.rs:448-457 | the characters a job's error line keeps are those the byte cut keeps |
| Render.ClientReadsBack | src/cli/render.rs:49-55 | an address comes first and its name follows in brackets; without an address there is neither |
| Render.SignedReadsBack | src/cli/render.rs:249-302 | a number reads back, with a sign exactly when it is negative |
| RedactUrl.PasswordIsRedacted | crates/core/src/logfields.rs:39-51 | a password without a slash becomes three stars, and scheme, user, host and path stay |
| RedactUrl.RedactedIffNoSlash | crates/core/src/logfields.rs:39-51 | that is the result if and only if the password has no slash |
| RedactUrl.SlashKeepsThePassword | crates/core/src/logfields.rs:43-48 | a URL whose password has a slash, and no at sign before it, is returned as it stands |
| RedactUrl.NoCredentialsNoChange | crates/core/src/logfields.rs:43-48 | with no credentials in its authority a URL is unchanged, whatever its path |
| RedactUrl.RedactIsIdempotent | crates/core/src/logfields.rs:39-51 | redacting twice is redacting once, for every text |
| ReleaseLines.FindReleaseLines | doc/build_versions.py:47-60 | the result lists every line with a release once, newest first, each with the tag kept for it |
| ReleaseLines.ReleasesAreThreeNumbers | doc/build_versions.py:38-38 | a tag names a release if and only if it is three runs of digits with dots between them |
| ReleaseLines.LineNameIsATagPrefix | doc/build_versions.py:47-60 | a line's name with a patch after it is a tag of that line |
| ReleaseLines.NewerIsNumeric | doc/build_versions.py:57-60 | lines are ordered as numbers, the major before the minor, however large minors get |
| ReleaseLines.ReadTags | doc/build_versions.py:49-56 | the dictionary holds for each line the first tag of its highest patch |
| ReleaseLines.BestIsFirstMaximal | doc/build_versions.py:55-56 | the tag kept has a higher patch than every earlier one of its line and no lower one than any later |
| ReleaseLines.HighestPatchIsKept | doc/build_versions.py:47-60 | every release tag's line is listed exactly once, with a tag of no lower patch |
| ReleaseLines.OrderIsIrrelevantIffUnambiguous | doc/build_versions.py:47-60 | listing the same tags in another order changes no line if and only if no line's highest patch is tagged twice |
| ReleaseLines.ResultIgnoresOrder | doc/build_versions.py:47-60 | then the whole list is the same in any order |
| ReleaseLines.CanonicalTagsAreUnambiguous | doc/build_versions.py:38-38 | tags without leading zeros are unambiguous |
| ReleaseLines.LeadingZerosAreAmbiguous | doc/build_versions.py:38-38 | any release tagged with and without a leading zero is ambiguous |

## Left out

- Listener.TaskOutlivesListener: a handshake or an accept that panics is not modelled; only failure and timeout are.
- AtomicFile.TargetsAreNeverTorn: targets are names in one directory, so two paths to one file, a synced directory and the umask are not modelled; two threads of one process writing one target are outside it, as `AtomicFile.SharedScratchTears` shows.
- AtomicFile.RenamedInodeIsOwn: a planted file reaches the scratch path only while nothing stands there; a process that replaces the scratch file of a running call is outside the model.
- ScriptRunner.NeverDeadlocks: a grandchild that keeps a pipe open is outside the model; the child is a finite program.
- JobTable.Jobs.Enqueue: the payload, trace and last-error columns are not modelled, since no guard reads them; reclaim, release, cancel, advance and cleanup are modelled as statements only.
- JobBudget.AttemptsAreBounded: backoff and its ceiling are any next run time; the handler's answer is any answer.
- Metrics.DurationsAndCountsAgree: histogram buckets and sums, wrap-around of 64-bit counters, the pool gauge and the exposition encoder are library behaviour.
- MetricLabels.NestedRoutesSplit: profile names hold no slash, as the configuration requires.
- ClientAddress.ResolveWalksRightToLeft: white space is the ASCII kind, the only one a header value that reads as text can hold.
- CertId.NormalizeUndoesPasting: upper case and white space are ASCII only.
- RenderLayout.ColourOnlyInserts: covers every renderer of accounts, audit entries, orders, jobs and upstream orders; those of credentials, operators, sessions and profiles have the same shape and would only add members. Key fingerprints and the summary of a problem document are given texts.
- RenderLayout.StrippedIsPlain: covers the same renderers.
- RenderReadBack.AccountReadsBack: like the other details, for fields without a line break; a field that has one prints lines of its own.
- ReleaseLines.FindReleaseLines: digits are ASCII; listing the tags and building the books are left out.
- X.509, DER, PEM and JSON decoding, signatures, MACs and randomness are foreign code and appear as parameters.
- Network transport (crates/net/src/http_client.rs, dns.rs, egress.rs), the command bodies under src/cli, the admin panel and the ACME handlers: case analysis over storage and wire formats.
- Fairness of the scheduler and real clocks: a timeout is an event that can happen at any moment.
