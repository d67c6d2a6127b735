# Shamu: verified models of the lease, watchdog, daemon and storage protocols

Shamu runs several coding agents side by side. This project models the parts of
it whose correctness is hardest to see by reading one function: file leases with
a commit guard, the watchdog's correlation buffers, the pickup daemon with its
rate limiter, the ULID generator, secret redaction, argument canonicalisation,
the Amp event projector, the mailbox export, the migration lock and the two
copies of the egress matcher.

Each module follows one part of the program. Code that computes a value is a
function; code that updates fields, tables or buffers is a class or a method
with a loop, proved equal to a function of the old state. Protocols with awaits,
several processes or crashes are step machines, and their theorems speak about
every sequence of steps. The class methods are tied to the same step functions:
a method that is one step equals it, and a call that spans several steps
(`applyPending`, `reconcile`, an append) equals their uninterrupted run.

`dafny verify dfyconfig.toml` checks everything (Dafny 4.11).

| module | part of the program |
|---|---|
| `Globs`, `Leases`, `PreCommit` | lease globs, the lease table, the pre-commit guard and the single-writer theorem across all three |
| `Agreement`, `CiTripwire` | watchdog agreement buffer and CI tripwire |
| `RateLimiter`, `Daemon` | token semaphore and the Linear daemon's pickups, handlers, pause and drain |
| `Ulid`, `CrockfordTable` | ULID encoding, increment and ordering |
| `Redactor` | masking of registered values |
| `Whitespace`, `Canonicalize` | normal form of tool arguments |
| `AmpProjection` | Amp stream messages to events |
| `Materialize`, `Migrations` | mailbox export under crashes; migration lock under concurrency |
| `EgressPolicy` | policy loading, serialisation and host matching on both sides of the container |
| `Text`, `Wrappers`, `StringOrder` | splitting, joining and trimming strings; the option type; the order on strings |

## Where the code and its documentation differ

The code is followed in each case, and the difference is a theorem.

- `globs.ts` promises to refuse whenever two globs *might* share a path. It does
  not for two crossed partial segments: `foo*` and `*.ts` both accept `foo.ts`.
  A pair of single-line globs is missed exactly when every way to align them needs
  a crossed pair: `OverlapExactIff`, `NeedsCrossing`.
- `pre-commit.ts` reads its clock, awaits `git diff`, and then asks for the leases
  that are live at the old clock. A lease that runs out meanwhile still lets its
  agent through, next to the agent that has leased the path since, for any glob:
  `OldClockBreaks`. `SingleWriterIff` says exactly when the protocol is
  single-writer: the overlap test misses no pair in use, no time passes between a
  guard's clock and its read of the table, and no file has a blank name.
- `pre-commit.ts` trims the lines git prints. A file named by spaces is not checked
  at all (`BlankNameUnguarded`), and a padded one is checked under another name.
- `materialize.ts` promises that a file is always a prefix of the inbox. That
  needs rows to arrive in delivery order: `AppendMatchesIff`, `HeaderRuleFails`.
- `migrations.ts` tells a refused process to retry shortly. A retry can succeed
  exactly when the lock is not left behind by a crash: `RetryCanSucceedIff`.
- `ulid.ts` is documented as monotonic. After an overflow error the stored bytes
  have wrapped to zero, so a retry in the same millisecond goes backwards; the
  results of a run increase exactly when no overflow is retried so: `MonotonicIff`.
- `projection.ts` correlates results with calls. It does so exactly when the call
  comes first; a result that overtakes its call gets an id of its own:
  `ResultIsLinkedIff`.
- `redactor.ts` is there to keep registered secrets out of its output. Every
  occurrence is masked, but the markers can spell a secret again: inside one
  (`CanShowIff`, `MarkerTextLeaks`) or, for a secret with an angle bracket, at its
  edge (`LeftEdgeLeaks`, `RightEdgeLeaks`). Otherwise it never happens (`NeverShown`).
- `canonicalize.ts` speaks of ASCII whitespace, but its final `trim` removes every
  JavaScript space at the ends (`PaddingGoes`); and a property named `__proto__` is
  dropped (`ProtoIsDropped`).
- `proxy.ts` is described as a copy of `policy.ts`. It accepts documents the
  original refuses (lists that are not arrays, bad log paths): `HostAcceptsIff`,
  `ContainerAcceptsMore`.

## Model

| member | source | states |
|---|---|---|
| `Globs.Segments` | packages/mailbox/src/globs.ts:47-49 | a glob or path becomes a list of non-empty, slash-free segments |
| `Globs.SegmentsOfJoin` | packages/mailbox/src/globs.ts:47-49 | every list of non-empty, slash-free names is the segment list of some path, so nothing is lost by reasoning on segments |
| `Globs.CommonName` | packages/mailbox/src/globs.ts:67-102 | whenever two segments are declared compatible there is a real name both accept |
| `Globs.MissedOnlyIfCrossed` | packages/mailbox/src/globs.ts:67-102 | a refused segment pair that shares a name is a pair of partial patterns whose literal ends agree, line terminators included |
| `Globs.SegmentTestExactIff` | packages/mailbox/src/globs.ts:67-102 | on single-line segments the test is right exactly when the pair is not crossed |
| `Globs.AffixesNecessary` | packages/mailbox/src/globs.ts:85-101 | two starred patterns with a common match have agreeing literal heads and tails |
| `Globs.AffixesSufficient` | packages/mailbox/src/globs.ts:85-101 | agreeing heads and tails suffice: the blended name is accepted by both |
| `Globs.PrefixAgainstSuffix` | packages/mailbox/src/globs.ts:67-102 | `p*` against `*s` is missed exactly when the placeholder X fits neither way, although both always accept p+s |
| `Globs.OverlapSymmetric` | packages/mailbox/src/globs.ts:113-163 | the overlap test is symmetric for every pair of globs |
| `Globs.WalkSound` | packages/mailbox/src/globs.ts:113-153 | for any segment test, a yes of the two-sided walk comes with a path both globs accept, its names from any class the test supplies |
| `Globs.WalkComplete` | packages/mailbox/src/globs.ts:113-153 | for any segment test that misses no shared name of these globs, the walk finds every shared path |
| `Globs.OverlapSound` | packages/mailbox/src/globs.ts:161-208 | a reported overlap is real: some path is accepted by the commit-side matcher for both globs |
| `Globs.MissedOverlapIsCrossed` | packages/mailbox/src/globs.ts:161-208 | a missed overlap of any two globs involves a crossed pair of segments |
| `Globs.NamesMeetExact` | packages/mailbox/src/globs.ts:67-102 | the affix test decides exactly whether two single-line segments share a name |
| `Globs.ReferenceOverlapExact` | packages/mailbox/src/globs.ts:161-208 | the walk with the affix test decides path sharing exactly |
| `Globs.CompatibleIsUncrossed` | packages/mailbox/src/globs.ts:67-102 | for single-line segments the code's test is the exact test minus the crossed pairs |
| `Globs.OverlapIsUncrossed` | packages/mailbox/src/globs.ts:161-163 | for single-line globs the code computes the walk over uncrossed pairs |
| `Globs.ShareLineIff` | packages/mailbox/src/globs.ts:161-208 | two single-line globs share a path without line feeds exactly when the reference walk succeeds |
| `Globs.MatchesLineIff` | packages/mailbox/src/globs.ts:172-208 | a glob accepts some path without line feeds exactly when it has none itself |
| `Globs.OverlapExactIff` | packages/mailbox/src/globs.ts:161-208 | for single-line globs the answer is right exactly when aligning the two needs no crossed pair, a test on the globs alone |
| `Globs.SimpleOverlapExact` | packages/mailbox/src/globs.ts:161-208 | on globs of literal, `*`, `**` and `*suffix` segments the overlap test is exact |
| `Globs.HeaderPromiseFails` | packages/mailbox/src/globs.ts:30-33 | `foo*` and `*.ts` both accept `foo.ts`, and no overlap is reported |
| `Leases.ListActive` | packages/persistence/src/queries/leases.ts:64-90 | exactly the rows that expire after now |
| `Leases.ActiveInAcquireOrder` | packages/persistence/src/queries/leases.ts:64-90 | in every reachable table the live rows are listed in the order of acquired_at |
| `Leases.LeaseStore.constructor` | packages/mailbox/src/leases.ts:85-145 | starts with an empty lease table |
| `Leases.LeaseStore.Acquire` | packages/mailbox/src/leases.ts:85-145 | appends a lease exactly when the caller and options are valid and no live glob overlaps; its row has the caller's run, agent and swarm, the asked glob and worktree, and is live exactly before now + ttlMs; a conflict names an overlapping live lease; otherwise nothing changes |
| `Leases.LeaseStore.Release` | packages/mailbox/src/leases.ts:155-172 | each answer has its exact condition: released exactly for a well-formed caller whose run holds the row with that id, and then every other row stays, in order; otherwise nothing changes |
| `Leases.LeaseStore.ReadForReclaim` | packages/mailbox/src/leases.ts:251-307 | goes on to git exactly for an expired lease with an existing worktree; each other answer has its exact condition |
| `Leases.LeaseStore.DeleteIfClean` | packages/mailbox/src/leases.ts:308-356 | deletes the row exactly on blank git output, with the answer for each other outcome |
| `Leases.StepKeepsInv` | packages/mailbox/src/leases.ts:85-356 | every step keeps: unique ids, no two live rows with overlapping globs, pending reclaims only aim at expired rows |
| `Leases.RunKeepsInv` | packages/mailbox/src/leases.ts:85-356 | hence in every reachable table, under a non-decreasing clock and any interleaving |
| `Leases.LiveLeaseRemovedOnlyByHolder` | packages/mailbox/src/leases.ts:155-172 | in every run a live lease is removed only by a release from its own holder run, even with reclaim split at its await |
| `Leases.LeaseLasts` | packages/mailbox/src/leases.ts:85-172 | from any reachable table a granted lease is in the table, with the caller's run, agent, swarm, glob and worktree, whatever happens next, until ttlMs have passed or its own run releases it |
| `Leases.HolderCanRelease` | packages/mailbox/src/leases.ts:155-172 | in every reachable table the holder run of any row, whatever its agent, can release it, and only it goes |
| `Leases.ReclaimRemoves` | packages/mailbox/src/leases.ts:308-356 | a reclaim that got past its await with blank git output removes its row and only that one |
| `Leases.DoubleMatchIsCrossed` | packages/mailbox/src/leases.ts:99-130 | a path matched by two live leases of a reachable table comes from a crossed pair of segments |
| `PreCommit.CheckStagedPaths` | packages/mailbox/src/pre-commit.ts:34-52 | blocks exactly the staged paths no lease of the agent matches, in order; allows exactly when there are none |
| `PreCommit.StagedPaths` | packages/mailbox/src/pre-commit.ts:108-114 | exactly the non-empty trimmed lines of the diff |
| `PreCommit.RunGuard` | packages/mailbox/src/pre-commit.ts:102-151 | exit 2 exactly when git fails, exit 0 exactly when every staged path is covered by a lease of the agent that is live at the clock the guard was given |
| `PreCommit.ListedPaths` | packages/mailbox/src/pre-commit.ts:108-114 | of the files git lists, the guard checks exactly the trimmed names that are not blank |
| `PreCommit.PlayKeepsOk` | packages/mailbox/src/pre-commit.ts:102-151 | every move of leases and split guards keeps: pending clocks are in the past, and each pass saw a table whose live leases do not overlap |
| `PreCommit.CollisionNeedsExpiry` | packages/mailbox/src/pre-commit.ts:106-131 | with exact globs, of two guards that let two agents through with one file at one time, one had only expired leases left when it read the table |
| `PreCommit.HandoverBetweenPasses` | packages/mailbox/src/leases.ts:85-356 | of two guards that pass one file for different agents at any two times, if the later one still holds it, every lease by which the earlier one held it has expired by then or was released in between by its holder run |
| `PreCommit.ExactKeepsSingleWriter` | packages/mailbox/src/pre-commit.ts:102-151 | if the overlap test is exact on the globs and files in use, every file has a name, and guards read the table at their clock, no two guards of a run let two agents commit one file against one table at one time |
| `PreCommit.MissedPairBreaks` | packages/mailbox/src/leases.ts:85-145 | for any pair of globs the test misses and any file both match as the guard reads its name, two agents both stage exactly that file and pass, with guards that read at once |
| `PreCommit.OldClockBreaks` | packages/mailbox/src/pre-commit.ts:106-131 | any one glob lets two agents commit any file it matches as soon as a guard may wait a millisecond between clock and read |
| `PreCommit.OldClockBreaksLiteral` | packages/mailbox/src/pre-commit.ts:106-131 | the literal glob `f`: both agents stage and commit the file `f` |
| `PreCommit.BlankNameUnguarded` | packages/mailbox/src/pre-commit.ts:108-131 | a file whose name is blank, such as a single space, passes the guard of any agent without a lease |
| `PreCommit.SpacedFileBreaks` | packages/mailbox/src/pre-commit.ts:108-114 | the globs ` foo*` and `*.ts` let two agents commit the file ` / foo.ts/ `, which the guard trims to `/ foo.ts/` |
| `PreCommit.SingleWriterIff` | packages/mailbox/src/pre-commit.ts:102-151 | for any class of files and over every interleaving of lease steps with guards split at their await that wait at most a given delay: single-writer if and only if no file has a blank name, the overlap test is exact on the globs for these files, and the delay is zero (or no file can be leased) |
| `PreCommit.SingleWriterOnOrdinaryFiles` | packages/mailbox/src/pre-commit.ts:102-151 | for files without padding around their names the condition speaks of the files as git lists them |
| `PreCommit.SingleWriterByGlobs` | packages/mailbox/src/globs.ts:161-208 | for all files with a name, and single-line globs, an executable test: no two globs in use need a crossed pair, and the delay is zero |
| `PreCommit.SimpleGlobsKeepSingleWriter` | packages/mailbox/src/pre-commit.ts:34-52 | with literal, `*`, `**` and `*suffix` segments and guards that read at once every run is single-writer on the files with a name |
| `PreCommit.CrossedGlobsBreakSingleWriter` | packages/mailbox/src/globs.ts:30-33 | `foo*` and `*.ts` are a concrete run in which two agents both stage and commit the file `foo.ts` |
| `Agreement.SortedPair` | packages/watchdog/src/agreement.ts:72-98 | the two signals in alphabetical order, whichever way round they come |
| `Agreement.Partner` | packages/watchdog/src/agreement.ts:174-198 | the first eligible partner in insertion order, none exactly when nobody is eligible |
| `Agreement.AgreementBuffer.constructor` | packages/watchdog/src/agreement.ts:144-155 | starts empty with a positive window |
| `Agreement.AgreementBuffer.Ingest` | packages/watchdog/src/agreement.ts:163-200 | evicts, alerts and stores as the specification on the run's swept bucket says |
| `Agreement.AgreementBuffer.ScanForPartner` | packages/watchdog/src/agreement.ts:174-198 | the loop stops at the first partner in insertion order that may be joined |
| `Agreement.AgreementBuffer.Sweep` | packages/watchdog/src/agreement.ts:209-213 | of every run exactly the observations no older than the window stay stored; empty buckets are dropped |
| `Agreement.AgreementBuffer.SweepRun` | packages/watchdog/src/agreement.ts:231-251 | keeps the observations in the window and the markers that name none of the evicted signals |
| `Agreement.SweepsChangeNothing` | packages/watchdog/src/agreement.ts:163-251 | a run of calls returns what its ingests alone return, from buffers that look alike |
| `Agreement.LazyEvictionUnobservable` | packages/watchdog/src/agreement.ts:163-251 | with non-decreasing times, runs with the same observations and any sweeps return the same hints and alerts |
| `Agreement.BufferStaysOk` | packages/watchdog/src/agreement.ts:163-251 | no empty bucket survives a call, and every marker names two different stored signals |
| `Agreement.SeenIsLatestInWindow` | packages/watchdog/src/agreement.ts:163-200 | the candidates an observation sees are exactly the latest observation per signal of its run still in the window |
| `Agreement.AlertIff` | packages/watchdog/src/agreement.ts:163-200 | each result follows from the observations and the earlier results: an alert exactly when an observation of medium or high confidence finds an unsuppressed latest in-window one of another signal, itself medium or high, and it joins the one whose signal entered the window first |
| `Agreement.AlertContents` | packages/watchdog/src/agreement.ts:112-138 | the alert lists the two observations in signal order, the later time, high confidence exactly if one of them is high, and role and vendor of the fresh one with the prior as fallback |
| `Agreement.AlertsJoinStrong` | packages/watchdog/src/agreement.ts:163-200 | in every run of calls both observations of every alert are of medium or high confidence, and of two signals |
| `Agreement.WeakRaisesNothing` | packages/watchdog/src/agreement.ts:167-172 | an observation of low or unknown confidence raises no alert, whatever is stored |
| `Agreement.RankIsAlphabetical` | packages/watchdog/src/agreement.ts:72-98 | the order of the signals is the order of their names |
| `Agreement.RealertNeedsAgeOut` | packages/watchdog/src/agreement.ts:163-251 | the same pair of a run alerts twice only if one of its signals aged out in between |
| `Agreement.MarkerIff` | packages/watchdog/src/agreement.ts:163-251 | a pair is marked exactly when it alerted before and neither of its signals has aged out since |
| `Agreement.StoredByRank` | packages/watchdog/src/agreement.ts:163-251 | stored observations stand in the order in which their signals last entered the window, read off the history |
| `Agreement.SweptResultsFromHistory` | packages/watchdog/src/agreement.ts:163-251 | any monotone run of calls, swept or not, returns results that its observations explain, in a specification that mentions no buffer |
| `Agreement.ExplainsUnique` | packages/watchdog/src/agreement.ts:163-251 | a history explains only one sequence of results |
| `CiTripwire.Tripwire.constructor` | packages/watchdog/src/ci-tripwire.ts:72-79 | starts with no streaks |
| `CiTripwire.Tripwire.Observe` | packages/watchdog/src/ci-tripwire.ts:116-137 | updates the role's streak and emits at the threshold as specified: green clears, red counts, unknown changes nothing |
| `CiTripwire.Tripwire.Fire` | packages/watchdog/src/ci-tripwire.ts:88-113 | emits the streak's run ids and last detail, then clears it |
| `CiTripwire.Tripwire.ResetRole` | packages/watchdog/src/ci-tripwire.ts:139-145 | forgets one role's streak |
| `CiTripwire.Tripwire.ResetEverything` | packages/watchdog/src/ci-tripwire.ts:139-145 | forgets every streak |
| `CiTripwire.RolesAreIndependent` | packages/watchdog/src/ci-tripwire.ts:116-145 | a role's events depend only on its own conclusive observations and resets |
| `CiTripwire.StreakFires` | packages/watchdog/src/ci-tripwire.ts:88-137 | from any streak in progress, an unbroken stretch emits one event per full block of reds |
| `CiTripwire.FiresOncePerBlock` | packages/watchdog/src/ci-tripwire.ts:88-137 | k reds without green or reset fire floor(k / threshold) times, the j-th event carrying the j-th block of run ids oldest first |
| `CiTripwire.ClearStartsOver` | packages/watchdog/src/ci-tripwire.ts:116-145 | after a green of a role or a reset that covers it, the role emits what it emits from the empty table, for any calls before and after |
| `CiTripwire.FiresIff` | packages/watchdog/src/ci-tripwire.ts:88-145 | over every history: a call emits an event for a role exactly when it is a red that makes the reds since the role's last green or reset whole blocks, and the event has the last block's run ids, oldest first |
| `RateLimiter.FindIndex` | packages/linear/integration/src/rate-limiter.ts:231-246 | the first waiter whose role has headroom |
| `RateLimiter.HeadroomIff` | packages/linear/integration/src/rate-limiter.ts:192-202 | headroom is fewer leases out than the global cap and fewer of the role than its cap, or the global one if it has none |
| `RateLimiter.Semaphore.constructor` | packages/linear/integration/src/rate-limiter.ts:164-191 | starts with no lease out and satisfies the invariant |
| `RateLimiter.Semaphore.MintLease` | packages/linear/integration/src/rate-limiter.ts:204-223 | counts one more lease in total and for its role |
| `RateLimiter.Semaphore.TryAcquire` | packages/linear/integration/src/rate-limiter.ts:271-274 | grants exactly when there is headroom, otherwise changes nothing |
| `RateLimiter.Semaphore.Acquire` | packages/linear/integration/src/rate-limiter.ts:275-305 | grants with headroom, parks while the queue has room, overflows otherwise |
| `RateLimiter.Semaphore.ReleaseLease` | packages/linear/integration/src/rate-limiter.ts:210-220 | gives a held lease back once and wakes waiters; a second release changes nothing |
| `RateLimiter.Semaphore.DrainWaiters` | packages/linear/integration/src/rate-limiter.ts:231-246 | wakes waiters in queue order while their role has headroom |
| `RateLimiter.MintKeepsOk` | packages/linear/integration/src/rate-limiter.ts:204-223 | granting with headroom keeps the caps, the counters and that nobody waits in vain |
| `RateLimiter.ParkKeepsOk` | packages/linear/integration/src/rate-limiter.ts:275-305 | parking without headroom keeps the invariant |
| `RateLimiter.DrainReachesOk` | packages/linear/integration/src/rate-limiter.ts:231-246 | after draining nobody waits whose role has headroom: no wake-up is lost |
| `RateLimiter.ReleaseKeepsOk` | packages/linear/integration/src/rate-limiter.ts:210-246 | every release keeps the caps, the exact counters and that nobody waits in vain |
| `RateLimiter.DrainConserves` | packages/linear/integration/src/rate-limiter.ts:231-246 | waking loses, doubles and invents nobody: waiters become holders one for one |
| `Daemon.LinearRuntime.constructor` | apps/cli/src/services/linear-runtime.ts:277-281 | starts in an initial state of the step machine |
| `Daemon.LinearRuntime.ReleaseEntry` | apps/cli/src/services/linear-runtime.ts:665-680 | drops a registry entry if it is there |
| `Daemon.LinearRuntime.SpawnHandler` | apps/cli/src/services/linear-runtime.ts:709-725 | registers the run with its lease in the in-flight table |
| `Daemon.LinearRuntime.PickUp` | apps/cli/src/services/linear-runtime.ts:734-782 | the machine's pickup step: while paused the entry goes and nothing starts; with headroom the run is in flight with the next lease; otherwise it is parked or rejected |
| `Daemon.LinearRuntime.AfterAcquired` | apps/cli/src/services/linear-runtime.ts:780-790 | unless paused the resumed pickup is spawned with its lease and keeps its entry; while paused its token and entry go back |
| `Daemon.LinearRuntime.FinishHandler` | apps/cli/src/services/linear-runtime.ts:665-680 | the finally block: token, in-flight entry and registry entry go back |
| `Daemon.LinearRuntime.PauseIntake` | apps/cli/src/services/linear-runtime.ts:858-862 | pauses, and nothing else |
| `Daemon.LinearRuntime.BeginDrain` | apps/cli/src/services/linear-runtime.ts:864-868 | pauses and starts the one shutdown; a second call changes nothing |
| `Daemon.LinearRuntime.AwaitRuns` | apps/cli/src/services/linear-runtime.ts:870-895 | once the driver has stopped, waits for the runs in flight now, if any |
| `Daemon.LinearRuntime.AbortRest` | apps/cli/src/services/linear-runtime.ts:896-920 | after the race, aborts exactly the runs still in flight |
| `Daemon.LinearRuntime.StopServer` | apps/cli/src/services/linear-runtime.ts:916-930 | goes on once the aborted runs have finished |
| `Daemon.LinearRuntime.ClearRegistry` | apps/cli/src/services/linear-runtime.ts:922-935 | drops whatever the registry still holds and resolves |
| `Daemon.StepKeepsInv` | apps/cli/src/services/linear-runtime.ts:665-937 | every step keeps the token, registry, phase and log invariant |
| `Daemon.RunKeepsInv` | apps/cli/src/services/linear-runtime.ts:665-937 | hence in every state of every run |
| `Daemon.WithinCapsAlways` | apps/cli/scripts/soak-daemon.ts:10-11 | runs in flight never exceed the tokens out, these never the global or role cap, and the queue stays bounded |
| `Daemon.EveryPickupSettlesOnce` | apps/cli/src/services/linear-runtime.ts:734-812 | every pickup is bound once; its token and registry entry go back at most once, and exactly once when it has finished |
| `Daemon.ResumedStarts` | apps/cli/src/services/linear-runtime.ts:779-790 | in every reachable state that is not paused, a pickup whose acquire has resolved holds a token, and its next step enters it in the in-flight table with that token and starts its handler, for the first time |
| `Daemon.PickupGoes` | apps/cli/src/services/linear-runtime.ts:734-812 | while not paused a new pickup is handled exactly when a token is free, else waits last in the queue exactly when it has room, else is turned away |
| `Daemon.PickupStarts` | apps/cli/src/services/linear-runtime.ts:763-769 | with a token free, fewer being out than either cap, a new pickup is started at once with the next lease |
| `Daemon.FinishedWasServed` | apps/cli/src/services/linear-runtime.ts:734-812 | in a run that never pauses, every finished pickup was started exactly once or met a full queue, never both |
| `Daemon.FinishWakesFirst` | apps/cli/src/services/linear-runtime.ts:665-680 | when a handler ends, the pickup that has waited longest is resumed |
| `Daemon.QuietMeansEmpty` | apps/cli/scripts/soak-daemon.ts:10-15 | when no activity can step, nothing is left: no token, waiter, registry entry or run, and every pickup has finished |
| `Daemon.PausedOnlyShrinks` | apps/cli/src/services/linear-runtime.ts:858-862 | after pause no handler starts and the runs in flight only shrink |
| `Daemon.StoppedMeansDrained` | apps/cli/src/services/linear-runtime.ts:864-937 | past its waits the shutdown has no run in flight; runs that outlive the deadline have been aborted; the registry ends empty |
| `Daemon.AbortsOnlyAtDeadline` | apps/cli/src/services/linear-runtime.ts:896-920 | in every run, a run is told to abort only when the drain's deadline has passed |
| `Daemon.DrainCanFinish` | apps/cli/src/services/linear-runtime.ts:864-937 | a drain never deadlocks: from every state in which it has begun, steps of the protocol reach its end |
| `Ulid.EncodeTime` | packages/shared/src/ulid.ts:28-41 | the ten base-32 digits of a timestamp; negative times raise |
| `Ulid.EncodeRandom` | packages/shared/src/ulid.ts:43-61 | for any number of bytes, the base-32 digits of the big-endian number without its leftover bits; ten bytes leave none over |
| `Ulid.DigitOut` | packages/shared/src/ulid.ts:52-57 | taking five bits off the top keeps buffer below 2^bitCount and digits plus buffer equal to the number read |
| `Ulid.RandomTextOrder` | packages/shared/src/ulid.ts:43-61 | sixteen characters compare as the 80-bit numbers do |
| `Ulid.RandomTextInjective` | packages/shared/src/ulid.ts:43-61 | different ten bytes never encode alike |
| `Ulid.IncrementIs` | packages/shared/src/ulid.ts:63-74 | the increment adds one, and all ones wrap to all zeros |
| `Ulid.IncrementBytes` | packages/shared/src/ulid.ts:63-74 | in place: value plus one, raising exactly on all ones and leaving zeros behind |
| `Ulid.Generator.constructor` | packages/shared/src/ulid.ts:76-80 | starts before every timestamp |
| `Ulid.Generator.Next` | packages/shared/src/ulid.ts:81-94 | same millisecond increments, another one draws anew; output and new state as specified, errors included |
| `Ulid.NextIsGreaterIff` | packages/shared/src/ulid.ts:81-94 | of two calls in a row that succeed, the second result is greater exactly when the clock did not go back |
| `Ulid.StrictlyIncreasing` | packages/shared/src/ulid.ts:81-94 | over every run of successful calls with non-decreasing timestamps below 32^10 the results strictly increase |
| `Ulid.SuccessesCompareIff` | packages/shared/src/ulid.ts:81-94 | of two successes with only raising calls between them the later is greater exactly when its timestamp is or nothing raised in between |
| `Ulid.MonotonicIff` | packages/shared/src/ulid.ts:63-94 | over every run at non-decreasing times, raising calls included, the results increase exactly when no overflow is retried within its millisecond |
| `Ulid.UlidShape` | packages/shared/src/ulid.ts:81-94 | every result has 26 characters of the alphabet |
| `Ulid.UlidSpells` | packages/shared/src/ulid.ts:81-94 | ten characters spell the call's time; sixteen spell the drawn bytes in a new millisecond, the previous random number plus one in the same; the generator keeps both |
| `Ulid.RaisesIff` | packages/shared/src/ulid.ts:28-94 | a call raises exactly for a negative time or when the same millisecond finds the 80-bit value all ones |
| `Ulid.RetryAfterOverflowGoesBack` | packages/shared/src/ulid.ts:63-94 | a retry within the millisecond of an overflow returns a smaller result than the one before it |
| `CrockfordTable.SymbolIsTableEntry` | packages/shared/src/ulid.ts:20-20 | the digit symbols are the entries of the alphabet table |
| `Redactor.Redactor.constructor` | packages/shared/src/redactor.ts:87-105 | nothing is registered at first |
| `Redactor.Redactor.Register` | packages/shared/src/redactor.ts:107-118 | refuses secrets below the minimum length, otherwise keeps digest and length |
| `Redactor.Redactor.CollectSpans` | packages/shared/src/redactor.ts:143-165 | exactly the windows of a registered length whose digest is registered |
| `Redactor.Redactor.MaskRegisteredValues` | packages/shared/src/redactor.ts:143-189 | the output is the text with exactly the union of all hits masked, separated runs, one marker each |
| `Redactor.MergeSpans` | packages/shared/src/redactor.ts:167-177 | merged spans are sorted and separated, cover the same positions, contain every input span and carry the leading label |
| `Redactor.Splice` | packages/shared/src/redactor.ts:178-188 | gaps and markers alternating |
| `Redactor.MarkerIs` | packages/shared/src/redactor.ts:155-189 | a masked secret reads `<REDACTED:value:` with the first eight characters of its digest and a closing bracket |
| `Redactor.MergedIsRedaction` | packages/shared/src/redactor.ts:143-189 | merging the sorted hits gives a redaction: coverage, containment and label of the longest hit |
| `Redactor.GapsShowTheRest` | packages/shared/src/redactor.ts:178-188 | a position is shown exactly when no masked run covers it |
| `Redactor.NoHitInsideGap` | packages/shared/src/redactor.ts:143-189 | no registered window lies inside an unmasked piece of the output |
| `Redactor.SecretIsMasked` | packages/shared/src/redactor.ts:143-189 | every occurrence of a secret whose digest and length are registered lies inside one masked run, whatever the hash |
| `Redactor.RegisteredIsMasked` | packages/shared/src/redactor.ts:107-189 | of secrets registered in turn, each is masked wherever it occurs unless a later one of another length has its digest |
| `Redactor.SecretShownIff` | packages/shared/src/redactor.ts:178-188 | a registered secret that can straddle no registered marker is in the output exactly when one of the output's markers contains it |
| `Redactor.NeverShown` | packages/shared/src/redactor.ts:143-189 | no text ever shows a registered secret that neither straddles nor lies inside the marker of a registered digest: a condition on secret and registry alone |
| `Redactor.CanShowIff` | packages/shared/src/redactor.ts:107-189 | some text shows a registered secret without angle brackets exactly when the marker of some registered digest contains it |
| `Redactor.MarkerTextLeaks` | packages/shared/src/redactor.ts:178-188 | the value `REDACTED:value:`, registered under any hash, is in its own redaction |
| `Redactor.LeftEdgeLeaks` | packages/shared/src/redactor.ts:178-188 | a secret whose end is the start of its own marker reappears where its first part stands before it, if that text contains it once |
| `Redactor.RightEdgeLeaks` | packages/shared/src/redactor.ts:178-188 | the same where the start of the secret is the end of its marker |
| `Redactor.BracketLeaks` | packages/shared/src/redactor.ts:178-188 | under every collision-free hash a secret that ends with its only `<` can reappear |
| `Redactor.OnlySecretsAreMasked` | packages/shared/src/redactor.ts:143-189 | with a collision-free hash every masked position belongs to an occurrence of a registered secret |
| `Redactor.RedactionUnique` | packages/shared/src/redactor.ts:143-189 | the output depends on text and registered values alone, not on the order lengths are scanned in |
| `Whitespace.CollapseIsWords` | packages/watchdog/src/canonicalize.ts:78-82 | collapsing gives the words of the trimmed text, one space apart |
| `Whitespace.CollapseIff` | packages/watchdog/src/canonicalize.ts:78-82 | two strings collapse alike exactly when they have the same words, words being cut at space, tab, line feed and carriage return |
| `Whitespace.SeparatorsAreAlike` | packages/watchdog/src/canonicalize.ts:78-82 | space, tab, line feed and carriage return can stand for one another anywhere, and two in a row for one |
| `Whitespace.CollapseIdempotent` | packages/watchdog/src/canonicalize.ts:78-82 | collapsing twice changes nothing more |
| `Whitespace.PaddingGoes` | packages/watchdog/src/canonicalize.ts:73-82 | padding of any JavaScript space goes, such as a no-break space, which is not in the ASCII set |
| `Canonicalize.FillSorted` | packages/watchdog/src/canonicalize.ts:61-67 | the loop that fills the sorted object builds the canonical property list |
| `Canonicalize.CanonicalIs` | packages/watchdog/src/canonicalize.ts:61-67 | the filled object holds the same properties, `__proto__` aside, in enumeration order |
| `Canonicalize.OrderedUnique` | packages/watchdog/src/canonicalize.ts:61-67 | an ordered property list is determined by its properties |
| `Canonicalize.CanonicalIff` | packages/watchdog/src/canonicalize.ts:61-67 | two property lists fill alike exactly when they hold the same properties, `__proto__` aside |
| `Canonicalize.NormalFormIff` | packages/watchdog/src/canonicalize.ts:55-71 | two argument trees have the same normal form exactly when they differ only in key order, `__proto__`, whitespace in strings and kind of null-like leaf |
| `Canonicalize.NormalizeIdempotent` | packages/watchdog/src/canonicalize.ts:55-71 | normalising twice changes nothing more |
| `Canonicalize.ProtoIsDropped` | packages/watchdog/src/canonicalize.ts:61-67 | a property named `__proto__` leaves no trace, whatever its value |
| `AmpProjection.Projector.constructor` | packages/adapters/amp/src/projection.ts:67-80 | starts empty with no turn |
| `AmpProjection.Projector.OpenTurnIfNeeded` | packages/adapters/amp/src/projection.ts:397-401 | opens a turn exactly when none is open |
| `AmpProjection.Projector.Push` | packages/adapters/base/src/correlation.ts:156-187 | appends an event with the next id and sequence number; callable only while a turn is open |
| `AmpProjection.Projector.OnAssistantBlock` | packages/adapters/amp/src/projection.ts:172-232 | deltas, reasoning and first-time tool calls as specified |
| `AmpProjection.Projector.OnUserBlock` | packages/adapters/amp/src/projection.ts:235-266 | first-time tool results as specified |
| `AmpProjection.Projector.OnResult` | packages/adapters/amp/src/projection.ts:267-330 | usage, cost, the error if any and the turn end, after which the turn is closed |
| `AmpProjection.Projector.ProjectMessage` | packages/adapters/amp/src/projection.ts:136-337 | one message takes the state and the log where the specification says, and never mints an envelope while the turn is closed |
| `AmpProjection.ProjectKeepsInv` | packages/adapters/amp/src/projection.ts:136-337 | every message keeps the log and table invariant |
| `AmpProjection.RunKeepsInv` | packages/adapters/amp/src/projection.ts:136-337 | hence over every stream of messages |
| `AmpProjection.AtMostOnce` | packages/adapters/amp/src/projection.ts:136-337 | each tool_use id yields at most one call and one result event, session start appears at most once, ids and sequence numbers grow |
| `AmpProjection.LogIsWhatMessagesSay` | packages/adapters/amp/src/projection.ts:136-337 | over every stream the events, text deltas and drawn ids aside, are a function of the messages: one session start, reasoning, the first call of each id with its tool, the first result with ok and content, errors, and usage, cost and turn end with their stop reason and duration |
| `AmpProjection.EndIs` | packages/adapters/amp/src/projection.ts:300-330 | the stop reason and the error message of a result, case by case |
| `AmpProjection.TurnsAreNumbered` | packages/adapters/base/src/correlation.ts:111-120 | every event belongs to the turn numbered by the turns that have ended before it |
| `AmpProjection.ResultLinksToCall` | packages/adapters/amp/src/projection.ts:204-266 | a result that follows its call has the call's id and the call's event as parent |
| `AmpProjection.OvertakingResultIsUnlinked` | packages/adapters/amp/src/projection.ts:204-266 | in every stream a result that overtakes its call has no parent and an id the call does not share |
| `AmpProjection.ResultIsLinkedIff` | packages/adapters/amp/src/projection.ts:204-266 | in every stream a result shares its call's id, and points at the call's event, exactly when the call comes first |
| `AmpProjection.OvertakingStream` | packages/adapters/amp/src/projection.ts:235-266 | for every id there is a stream whose result comes before its call |
| `AmpProjection.RunSpeaks` | packages/adapters/amp/src/projection.ts:164-190 | across any interleaving, the deltas of a message are those of its own snapshots in order |
| `AmpProjection.DeltasRebuildText` | packages/adapters/amp/src/projection.ts:164-190 | the deltas of a message spell its latest text exactly when every snapshot extended the one before |
| `EgressPolicy.CollectHost` | packages/egress-broker/src/policy.ts:57-127 | the host's loop with its seen set: the valid lower-cased entries, first occurrences only, or a violation |
| `EgressPolicy.CollectContainer` | packages/egress-broker-container/docker/proxy.ts:90-121 | the container's loop, which searches the list itself, computes the same |
| `EgressPolicy.EntriesAre` | packages/egress-broker/src/policy.ts:57-127 | accepted exactly when every entry is a valid string; the list is valid, duplicate-free and complete |
| `EgressPolicy.EntriesFrom` | packages/egress-broker/src/policy.ts:57-127 | nothing is listed that was not in the document |
| `EgressPolicy.MatchHost` | packages/egress-broker/src/policy.ts:157-188 | true exactly when the scan hits for the normalised host |
| `EgressPolicy.NormalizesToIff` | packages/egress-broker/src/policy.ts:157-172 | exactly these hosts stand for a bare name once padding and case are gone: the name, the name with one trailing dot, either in brackets |
| `EgressPolicy.PaddingAndCase` | packages/egress-broker/src/policy.ts:157-172 | blank padding and the case of letters never matter |
| `EgressPolicy.HostnameIsBare` | packages/egress-broker/src/policy.ts:157-172 | a valid host name stands for itself |
| `EgressPolicy.ScanTarget` | packages/egress-broker-container/docker/proxy.ts:77-88 | true exactly for a listed host or a suffix entry that hits |
| `EgressPolicy.SuffixIsZone` | packages/egress-broker/src/policy.ts:178-186 | a suffix entry hits exactly when its label sequence ends the host's label sequence, for every string |
| `EgressPolicy.ScanIsByLabels` | packages/egress-broker/src/policy.ts:173-188 | with dotted suffixes the scan decides by whole labels |
| `EgressPolicy.AcceptedIsNormal` | packages/egress-broker/src/policy.ts:31-127 | an accepted policy has valid hosts and dotted valid suffixes |
| `EgressPolicy.RoundTrip` | packages/egress-broker-container/src/container.ts:255-265 | an accepted policy survives serialisation and the container's loader unchanged, the log path aside |
| `EgressPolicy.MatchersAgree` | packages/egress-broker-container/docker/proxy.ts:49-121 | both matchers decide every host alike, and as the labels say |
| `EgressPolicy.HostAcceptsIff` | packages/egress-broker-container/docker/proxy.ts:90-121 | the exact documents the two loaders treat differently |
| `EgressPolicy.ContainerAcceptsMore` | packages/egress-broker-container/docker/proxy.ts:90-121 | a document with a string as host list, which only the container accepts |
| `Migrations.Store.constructor` | packages/persistence/src/migrations.ts:112-123 | no lock and no version at first |
| `Migrations.Store.TakeLock` | packages/persistence/src/migrations.ts:112-123 | wins exactly when the lock row was absent |
| `Migrations.Store.ApplyPending` | packages/persistence/src/migrations.ts:138-172 | refused exactly when locked; otherwise the missing versions are committed in order up to the first that fails, and the lock is free again; the database is the one the uninterrupted steps of one process leave |
| `Migrations.SoloRun` | packages/persistence/src/migrations.ts:138-172 | the machine's steps of one call, uninterrupted, leave the database and the outcome the call leaves |
| `Migrations.PendingAfterPrefix` | packages/persistence/src/migrations.ts:138-172 | when the rows are an initial part of the list, the rest of the list is pending |
| `Migrations.StepKeepsInv` | packages/persistence/src/migrations.ts:112-172 | every step of every process keeps the invariant |
| `Migrations.RunKeepsInv` | packages/persistence/src/migrations.ts:112-172 | hence in every run with any number of processes and crashes |
| `Migrations.MutualExclusion` | packages/persistence/src/migrations.ts:112-127 | at most one process is between taking and releasing the lock |
| `Migrations.CommittedIsPrefix` | packages/persistence/src/migrations.ts:138-172 | committed versions are always an initial part of the list, each once |
| `Migrations.OnlyTheHolderFreesTheLock` | packages/persistence/src/migrations.ts:125-172 | the lock is freed only by the one process inside; a refused one never frees it |
| `Migrations.SecondRunAppliesNothing` | packages/persistence/src/migrations.ts:138-172 | once one run has completed, any process that completes later applies nothing, wherever it stood then |
| `Migrations.CrashOfHolderBlocksEveryone` | packages/persistence/src/migrations.ts:138-150 | if the holder crashes, no later call takes or frees the lock and nothing is applied any more |
| `Migrations.LockCanComeFreeIff` | packages/persistence/src/migrations.ts:112-172 | in every reachable world the lock can come free exactly when it is not left behind by a crash |
| `Migrations.RetryCanSucceedIff` | packages/persistence/src/migrations.ts:138-150 | a call that is not running can still get the lock exactly when it is not left behind by a crash |
| `Materialize.Export.constructor` | packages/mailbox/src/materialize.ts:90-112 | no rows and no files at first |
| `Materialize.Export.AppendToMaterializedLog` | packages/mailbox/src/materialize.ts:90-112 | the agent's file gains one line, other files are untouched |
| `Materialize.Export.Reconcile` | packages/mailbox/src/materialize.ts:124-170 | from any files, every agent with a row gets its inbox in delivery order; other files are left alone |
| `Materialize.Export.GroupByAgent` | packages/mailbox/src/materialize.ts:139-157 | the grouping map holds exactly each agent's rows, in order |
| `Materialize.RewriteIsReconcile` | packages/mailbox/src/materialize.ts:124-170 | booting and writing every owner's file, in any order and uninterrupted, leaves the files reconcile leaves |
| `Materialize.StageIsAppend` | packages/mailbox/src/materialize.ts:90-112 | staging and renaming the next owed line leaves the files an append leaves |
| `Materialize.Export.FileMatchesDb` | packages/mailbox/src/materialize.ts:177-214 | true exactly when the file is the agent's inbox |
| `Materialize.SelectThenSort` | packages/mailbox/src/materialize.ts:124-214 | sorting then selecting, as reconcile does, equals selecting then sorting, as the diagnostic does |
| `Materialize.AppendMatchesIff` | packages/mailbox/src/materialize.ts:10-25 | insert then append keeps a matching file matching exactly when the row sorts last for its agent |
| `Materialize.LateRowBreaksPrefix` | packages/mailbox/src/materialize.ts:10-25 | with a row that does not sort last the file is not even a prefix |
| `Materialize.HeaderRuleFails` | packages/mailbox/src/materialize.ts:10-25 | two rows whose clock went back between them break the header's rule |
| `Materialize.StepKeepsInv` | packages/mailbox/src/materialize.ts:90-170 | every step keeps: file plus owed lines are the inbox, read stamps aside |
| `Materialize.RunKeepsInv` | packages/mailbox/src/materialize.ts:90-170 | hence over every run with crashes anywhere |
| `Materialize.FileIsAlwaysPrefix` | packages/mailbox/src/materialize.ts:10-25 | at every moment of every run each file is an initial part of the inbox in delivery order, read stamps aside |
| `Materialize.FilesInDeliveryOrder` | packages/mailbox/src/materialize.ts:124-135 | at every moment of every run each file lists messages of its agent alone, each a row of the table, by delivered_at and then by id, none twice |
| `Materialize.ServingLacksOnlyOwed` | packages/mailbox/src/materialize.ts:90-112 | while serving, a file lacks exactly the lines still to be appended |
| `Materialize.ReconcileMatchesIff` | packages/mailbox/src/materialize.ts:124-170 | once all files are rewritten, each is the inbox exactly when no read stamp of the agent's rows changed since the table was read |
| `Materialize.CompletedReconcileMatches` | packages/mailbox/src/materialize.ts:124-214 | after any run, a crash and a completed reconcile, the diagnostic holds for every agent |

## Left out

- SQLite, git, Docker, keychain, HTTP, NTP and process spawning: their results are parameters or choices of a step.
- Clocks and randomness: timestamps and random bytes are parameters; run ids, lease ids, event ids and message ids are drawn from counters or required to be new.
- `PreCommit.SingleWriterIff`: git lists names as they are, one on a line; its quoting of unusual characters is not modelled.
- `Redactor.NeverShown`: one way for secrets with angle brackets; the edge lemmas give the other way where one occurrence stands alone, not for secrets that overlap themselves or straddle several markers.
- Strings are sequences of characters, not of UTF-16 code units; order of characters outside the basic plane follows code points.
- `Leases.LeaseStore.Acquire`: reading the clock and the transaction are one step, since nothing is awaited between them; a process that waits for the database lock there is not modelled.
- Swarm filtering in `listActive` and details of error messages and logging.
- `RateLimiter`: abort signals of waiters; the daemon passes none. Roles are arbitrary, the daemon uses one.
- `Daemon`: Linear labels, comments, escalations, the pickup counter and shim pruning; a handler's work is one step that ends, so that aborted runs finish is what the step `Finish` stands for.
- `Daemon.LinearRuntime.AwaitRuns`: an await is the point where the method ends; when the next one may be called is its precondition.
- `Daemon`: heap growth, the third point of the soak script.
- `Agreement`: an alerted-pair key is the pair itself, not the joined string; signals are the four the watchdog has.
- `Ulid.StrictlyIncreasing`: timestamps are integers; `encodeTime` on fractions, and the wrap-around of times from 32^10 on, are not stated.
- `Redactor`: the regular-expression pass and the overall `redact` order; SHA-256 is an arbitrary function.
- `Canonicalize.NormalFormIff`: numbers are reals, so NaN, infinities and negative zero are not distinguished; stringifying, redacting and hashing the normal form are not modelled.
- `AmpProjection`: token, cost and model fields, tool arguments, and cutting of long tool output; content is the rendered string.
- `EgressPolicy.RoundTrip`: JSON values stand for their text; JSON stringify and parse are taken as inverse.
- `Materialize`: a file is the list of rows its lines stand for; disk faults below rename and fsync are not modelled.
- `Migrations.Store.ApplyPending`: versions are distinct, as in the fixed list; checksums and timestamps of the records are left out.
- `deriveTerminalStatus`, the CI status mapping and the TAP and ESLint scrapers: short tables and heuristics.
- The flow engine, supervisor, audit chain, watchdog signals, web UI, CLI commands, doctor checks and release scripts: wiring, or only easy members to add.
