# Verified models of the evaluation ledgers, checkpoints, plans, feed, migration and release manifests

The repository's offline and live tools keep several kinds of evidence that must stay right under
concurrency, crashes, partial data loss and machine arithmetic. This project models them in Dafny and
proves what they promise over every input, every run or every reachable state.

- **Redis budget ledger** (`RedisScripts`, `RedisServer`, `RedisDriver`, `RedisRuns`, `RedisSafety`,
  `RedisExact`, `LuaNumbers`): a state
  hash, an event stream and a marker that never expires, changed only by atomic scripts. Each script is a
  function on the store; `RedisServer` performs it key by key and is proved equal to that function. Runs mix
  scripts of any number of clients with a clock that never goes back and the loss of any subset of the keys.
- **Audit verifier** (`Audit`, `AuditPaging`, `AuditRuns`, `AuditExact`): a declarative notion of an honest log, the verifier
  that replays a stream entry by entry, and the paging loop with its inclusive overlapping cursor.
- **File budget ledger** (`FileLedger`, `FileStore`, `FileRuns`, `FileSafety`, `FileLimits`, `FileEvidence`): a directory of
  signed, hash-chained records shared by processes. `FileStore` holds the scan loop and the retry loop;
  `FileRuns` interleaves any number of processes one system call at a time.
- **Both ledgers against one abstract counter** (`Base`, `Backends`), and **plans** that promise the counter
  will not refuse (`Plan`, `PlanCoverage`), what live calls then really reserve (`LiveRequests`,
  `LiveCalls`, `LiveBounds`, `LiveGap`), and the **cost arithmetic** below them (`Cost`).
- **Checkpoint store** (`Checkpoint`, `CheckpointRuns`), **feed pagination** (`Feed`), **memory migration**
  (`Migrate`, `MigrateUsers`) and **release manifests** (`Manifest`, `ManifestChecks`, `ManifestSafety`,
  `ManifestMeaning`).
- Shared parts: `Decimal` (number text), `Signing` (symbolic digests and signatures), `Numbered` (numbered
  directories).

`dafny verify dfyconfig.toml` checks the whole project.

## Modelling decisions

- SHA-256, HMAC and JSON are symbolic: a digest or signature equals another exactly when what it covers is
  equal. Hex text keeps its letter case, because verification ignores it. Where only injectivity matters
  (reservation digests, manifest digests) the digest is a function parameter assumed collision-free by name.
- Machine integers are unbounded integers with explicit wrap-around (`Base.Wrap64`) wherever the source adds
  without a guard: admission counts, the preflight cost, report totals.
- Scripts compute in double precision; `LuaNumbers.BudgetComparisonIsExact` shows that this never changes a
  budget decision within the permitted limits, so the scripts are modelled on integers.
- The Redis clock never goes back and stream IDs follow the server's rule for automatic IDs. The Redis window
  is in milliseconds and the file ledger's in nanoseconds, as in the source.
- Stream entry field names are a datatype; field values are raw text, parsed and printed by real decimal code.
- Other processes, other clients and failing system calls enter as arbitrary environment steps or parameters.
  A crash is the death of a process between two system calls, not the loss of synced data.
- A manifest's input list, sorted by path and free of repeats, is a map from path to digest.
- Sizes of requests and data sets are unbounded natural numbers; a text is known by its ASCII characters, its other
  characters and the bytes they take. A case is known by its first messages, its tools, and the exchanges those support:
  a tool's name, the leanest arguments that get a reply, and the reply. The model's own words are free. A response
  accounts for at least one token, and retrieval actions are off, as in the evaluation.

## Where the code and its promise differ

- Admission adds captured outputs without an overflow guard. A run request that overflows the sum is admitted and
  leaves a directory that no later load accepts (`FileSafety.OverflowLosesLedger`); runs, calls, cost and provider
  calls stay within their limits even then (`FileSafety.SharedLedgerIsSafe`), and this is exactly when the two
  ledgers disagree (`Backends.BackendsAgree`).
- Loading refuses more than 100,000 records although the limits allow slightly more. `FileLimits.AlwaysReloads`
  gives the limits for which a directory always reloads; `FileLimits.CapStrandsBudget` says when budget is stranded.
- The hash chain protects content, not spelling: recasing a signature's hex digits yields a different directory
  that is accepted (`FileEvidence.SpellingIsNotProtected`).
- The preflight cost sum is unguarded; coverage implies that nothing foreseen is refused if and only if that sum
  fits (`PlanCoverage.CoverageIsEnough`).
- A plan's cost bound is per profile, in actual tokens or cost, while the ledger is charged a byte bound and the full
  output allowance for every call and never refunded. So runs that the runner admits can reserve far more than planned
  (`LiveGap.ReservationsOutgrowPlan`) and be cut short by the ledger; `LiveBounds.LimitsSuffice` gives the cost
  limits that are always enough.
- A usage report wraps once the sum of rounded costs passes the largest integer; a single saturated record is enough
  to bring it to that point (`Cost.MeteredIsWrapped`, `Cost.MeteredIsConservative`).
- The checkpoint store accepts one case more than the evaluation has, after which the directory cannot be
  reopened (`CheckpointRuns.OverrunBlocksReopen`); callers that stop at the last case never get there
  (`CheckpointRuns.StoppingCallersReopen`).

## Model

| member | source | states |
|---|---|---|
| Base.LimitsMean | cmd/agent-task-eval/live_authorization.go:323-328 | the accepted limits, each with its own bounds |
| RedisServer.Server.Initialize | cmd/agent-task-eval/live_authorization_redis.go:70-164 | updating the three keys in place equals the atomic script: same store, same reply, for every store |
| RedisServer.Server.Reserve | cmd/agent-task-eval/live_authorization_redis.go:166-297 | the in-place reservation, with every refusal and the retry shortcut, equals the atomic script |
| RedisServer.Server.Charge | cmd/agent-task-eval/live_authorization_redis.go:232-297 | the budget checks and the four counter updates equal the script's charging branch |
| RedisServer.Server.Revoke | cmd/agent-task-eval/live_authorization_redis_admin.go:192-288 | the in-place revocation, stream mode or marker only, equals the atomic script |
| RedisDriver.Play | cmd/agent-task-eval/live_authorization_redis.go:70-297 | the keys updated in place, through any run of scripts, clock advances and losses, end exactly where the run of atomic steps does |
| RedisScripts.ReservationFieldsParse | cmd/agent-task-eval/live_authorization_redis.go:275-293 | the text a reservation writes to the stream parses back to exactly what was reserved |
| RedisScripts.NextStreamId | cmd/agent-task-eval/live_authorization_redis.go:275-293 | an automatically assigned stream ID is after the stream's last |
| Decimal.ParseItoa | cmd/agent-task-eval/live_authorization_redis_audit.go:367-377 | parsing inverts printing on every 64-bit integer |
| LuaNumbers.BudgetComparisonIsExact | cmd/agent-task-eval/live_authorization_redis.go:252-273 | comparisons and sums in doubles decide and store exactly as integers do, however large the request |
| RedisRuns.GrantKeeps | cmd/agent-task-eval/live_authorization_redis.go:232-297 | a grant keeps the invariant that counters, reservations and stream tell the same story |
| RedisRuns.RevokeKeeps | cmd/agent-task-eval/live_authorization_redis_admin.go:192-288 | a revocation keeps it, in either mode |
| RedisRuns.InitializeKeeps | cmd/agent-task-eval/live_authorization_redis.go:70-164 | creation establishes it and a repeated initialization keeps it |
| RedisRuns.Reachable | cmd/agent-task-eval/live_authorization_redis.go:70-297 | the invariant holds after every run, with clock advances and any losses |
| RedisSafety.LedgerMatchesStream | cmd/agent-task-eval/live_authorization_redis.go:70-297 | after every run, while state and events exist: sequence+1 entries numbered from 0, creation first and only there, each counter the sum of the entries' own text and within its limit, sequence = runs + calls + (1 if revoked) |
| RedisSafety.LossNeverRegrants | cmd/agent-task-eval/live_authorization_redis.go:79-132 | everything ever granted fits in one full budget per marker loss plus one; grants since the last creation fit in one; creation needs all three keys absent |
| RedisSafety.RecreationNeedsMarkerLoss | cmd/agent-task-eval/live_authorization_redis.go:79-132 | between any two creations of one ledger the marker was lost |
| RedisSafety.RevocationIsFinal | cmd/agent-task-eval/live_authorization_redis_admin.go:209-288 | after a revocation, through every run that keeps the marker: recorded operator, reason, time and request unchanged, no initialize or reserve succeeds, repeated revokes change nothing, the revocation event stays last |
| RedisSafety.RetryIsChargedOnce | cmd/agent-task-eval/live_authorization_redis.go:223-230 | in every run an ID is charged at most once, and repeating it succeeds without change while the window is open, however little budget is left |
| RedisSafety.ConflictChangesNothing | cmd/agent-task-eval/live_authorization_redis.go:580-615 | an ID reused for different content is refused and changes nothing |
| RedisExact.InitializeExactly | cmd/agent-task-eval/live_authorization_redis.go:70-164 | in every run initialization creates if and only if all keys are absent in the window, reports an existing ledger if and only if it is intact, unrevoked and in the window, and otherwise refuses; only a creation writes, and it writes an empty ledger |
| RedisExact.ReserveExactly | cmd/agent-task-eval/live_authorization_redis.go:166-297 | in every run a reservation succeeds if and only if the ledger is intact, unrevoked and in its window and the ID is known under the same digest (nothing changes) or new and affordable; the charge raises each counter by exactly what was asked and writes every argument to the stream; otherwise refused unchanged |
| RedisExact.RevokeExactly | cmd/agent-task-eval/live_authorization_redis_admin.go:192-288 | in every run a revocation takes effect if and only if the marker is unrevoked, the window open, and nothing is lost or the reason is "state_integrity_incident"; a revoked marker answers 0; anything else is refused unchanged; the marker and the last entry then carry operator, reason, request and time |
| RedisExact.ForeignKeysAreRefused | cmd/agent-task-eval/live_authorization_redis.go:79-132 | whatever a store holds, another ledger's marker, or a state hash or stream that does not fit beside an unrevoked marker, makes every script refuse without a write |
| RedisExact.InconsistentKeysAreRefused | cmd/agent-task-eval/live_authorization_redis_admin.go:90-190 | an intact ledger is inspected only with usage not negative, and with marker and state telling the same revocation or none |
| Audit.ReplayDecides | cmd/agent-task-eval/live_authorization_redis_audit.go:136-338 | replaying a prefix succeeds exactly when the prefix is honest, and the verifier's counters are then the prefix's sums |
| Audit.AcceptsExactly | cmd/agent-task-eval/live_authorization_redis_audit.go:136-338 | the verifier accepts a log if and only if: IDs increase, sequences are contiguous, one creation (first), at most one revocation (last, present iff the snapshot is revoked), every prefix within limits, final sums and last ID those of the snapshot |
| AuditExact.AcceptedLog | cmd/agent-task-eval/live_authorization_redis_audit.go:136-338 | entry by entry, in the text of its own fields, what acceptance says: number, time in the window, exactly the fields of its kind, one run or one call in hexadecimal and non-negative text, the snapshot's own revocation last, running sums within every limit |
| AuditExact.DigestOfReservation | cmd/agent-task-eval/live_authorization_redis_audit.go:209-265 | the digest of a reservation entry covers kind, time, invocation, subject, amounts and reservation digest, each in its place |
| AuditExact.DigestOfCreation | cmd/agent-task-eval/live_authorization_redis_audit.go:191-207 | the digest of a creation entry covers its ID, kind, time and payload hash and nothing else |
| AuditExact.DigestOfRevocation | cmd/agent-task-eval/live_authorization_redis_audit.go:267-306 | the digest of a revocation entry covers operator, reason, request and payload hash, each in its place |
| AuditPaging.Verifier.Consume | cmd/agent-task-eval/live_authorization_redis_audit.go:136-189 | the verifier's fields after an entry are the replay of everything consumed, and it refuses exactly when the replay does |
| AuditPaging.Verifier.AddReservation | cmd/agent-task-eval/live_authorization_redis_audit.go:308-321 | adding a reservation's parsed counts without overflow, refused exactly when a limit would be passed |
| AuditPaging.Verifier.CheckRevocation | cmd/agent-task-eval/live_authorization_redis_audit.go:267-306 | a revocation entry is accepted exactly when it matches the snapshot's revocation in every recorded field |
| AuditPaging.RequireFields | cmd/agent-task-eval/live_authorization_redis_audit.go:340-350 | an entry has exactly the expected fields |
| AuditPaging.ReadPages | cmd/agent-task-eval/live_authorization_redis_audit.go:95-126 | the overlapping pages terminate and tile the captured log, each entry consumed once |
| AuditPaging.VerifyAuditStream | cmd/agent-task-eval/live_authorization_redis_audit.go:69-133 | whatever the reads return, a verified run replayed an honest log; if only appends happened since the snapshot, the verdict is exactly the verdict on the captured log |
| AuditPaging.Finish | cmd/agent-task-eval/live_authorization_redis_audit.go:323-338 | the final comparison with the snapshot's counts, usage, last ID and status |
| AuditRuns.AuditIsComplete | cmd/agent-task-eval/live_authorization_redis_audit.go:76-189 | from every reachable state with all three keys, inspection succeeds and the audit accepts, including its cap of 2 + MaxRuns + MaxProviderCalls events |
| AuditRuns.AuditToleratesAppends | cmd/agent-task-eval/live_authorization_redis_audit.go:95-126 | scripts, clock and losses of other keys between pages leave the captured log a prefix of every read |
| AuditRuns.InspectAndAudit | cmd/agent-task-eval/live_authorization_redis_audit.go:69-133 | from every reachable state with all three keys, and whatever but the loss of the stream goes on between the pages, the paged audit verifies |
| AuditRuns.InspectTellsStory | cmd/agent-task-eval/live_authorization_redis_admin.go:90-190 | in every such state the inspect script returns a snapshot that agrees with the stream |
| FileLedger.AdmitExactly | cmd/agent-task-eval/live_authorization.go:555-574 | wrapped admission accepts exactly what the abstract counter accepts, plus run requests whose output sum overflows |
| FileStore.CheckRecord | cmd/agent-task-eval/live_authorization.go:600-631 | one scanned file is accepted exactly when it extends the honest ledger read so far, with the exact running total |
| FileStore.Load | cmd/agent-task-eval/live_authorization.go:576-631 | loading returns the records and their summed usage, or fails exactly when the directory is not an honest ledger of at most 100,000 records; every record returned is for this authorization and window, numbered, linked, and signed over its own content with this key at its own time |
| FileStore.BuildVerifies | cmd/agent-task-eval/live_authorization.go:633-656 | a freshly signed record verifies against the record before it |
| FileStore.BuildCarries | cmd/agent-task-eval/live_authorization.go:461-491 | a new record says what its caller asked for and is signed over that at that instant |
| FileStore.BuildKeepsHonest | cmd/agent-task-eval/live_authorization.go:493-541 | an admitted record keeps the ledger honest if and only if the abstract counter can afford it |
| FileStore.SharedDirectory.Link | cmd/agent-task-eval/live_authorization.go:658-705 | a number once taken keeps its record; on a gap-free directory only the number after the last can still be taken by a process that knows a prefix, and the directory stays gap-free with the record at its end |
| FileStore.AppendReservation | cmd/agent-task-eval/live_authorization.go:493-541 | whatever rivals do between load and link of each of 32 attempts, and wherever a commit fails, a committed record sits on everything committed before it and was admitted against it, which is so exactly for a success and for an error after the link; alone, each outcome has its exact cause; the record carries the caller's own subject, invocation, kind, amounts and time |
| FileRuns.LinkKeeps | cmd/agent-task-eval/live_authorization.go:658-705 | a successful link keeps the invariant of the directory and of every other process |
| FileRuns.Reachable | cmd/agent-task-eval/live_authorization.go:493-541 | the invariant holds for every interleaving of any number of processes asking for anything |
| FileRuns.AlmostFacts | cmd/agent-task-eval/live_authorization.go:555-574 | a ledger whose last record was admitted in machine arithmetic has runs, calls and cost within the limits, and is honest if and only if its output sum fits |
| FileSafety.SharedLedgerIsSafe | cmd/agent-task-eval/live_authorization.go:493-541 | for every action sequence: a gap-free verified chain; runs, calls and cost within the limits; provider calls made number and cost no more than allowed; every record before the last an honest ledger, and the whole one if and only if its output sum fits |
| FileSafety.CallsArePaid | cmd/agent-task-eval/live_authorization.go:734-760 | each provider call has its own committed reservation, so calls and cost are within the limits across all processes |
| FileSafety.StaleNeverCommits | cmd/agent-task-eval/live_authorization.go:658-705 | in every run a link that succeeds was built and admitted on the whole directory as it is at that moment, which was then honest; the new record is affordable if and only if the output sum fits; it carries its caller's own subject, invocation, kind, amounts and time |
| FileSafety.ReadsBack | cmd/agent-task-eval/live_authorization.go:576-631 | after every run the directory reads back to exactly what was written if and only if it has at most 100,000 records and its output sum fits; otherwise loading fails |
| FileSafety.OverflowLosesLedger | cmd/agent-task-eval/live_authorization.go:555-574 | an overflowing output sum is admitted and leaves a ledger that refuses everything |
| FileLimits.SequentialIsARun | cmd/agent-task-eval/live_authorization.go:493-541 | everything the ledger does request by request is a run of the shared directory |
| FileLimits.CapIsReached | cmd/agent-task-eval/live_authorization.go:592-594 | a run of free calls and runs reaches such a ledger for all limits that add up past the cap |
| FileLimits.CapStrandsBudget | cmd/agent-task-eval/live_authorization.go:592-594 | after any run to an honest ledger one record past the cap nothing is accepted, and budget is left if and only if the limits allow at least 100,002 records |
| FileLimits.OverflowIsReached | cmd/agent-task-eval/live_authorization.go:555-574 | two runs overflow the output sum whenever two runs and one output are allowed |
| FileLimits.AlwaysReloads | cmd/agent-task-eval/live_authorization.go:592-594 | every run leaves a directory that reloads if and only if MaxRuns + MaxProviderCalls is at most 100,000 and captured outputs cannot add up over two runs (MaxCapturedOutputs is 0 or MaxRuns is 1) |
| FileEvidence.TamperingShows | cmd/agent-task-eval/live_authorization.go:633-656 | with the final record kept, any other directory is accepted if and only if every record is the same up to hex case and zone spelling; so altering, moving or dropping an earlier record fails |
| FileEvidence.ContentIsProtected | cmd/agent-task-eval/live_authorization.go:633-656 | changing what any record says while keeping its integrity block is refused |
| FileEvidence.SpellingIsNotProtected | internal/module/agent/eval/agent_task_integrity.go:57-81 | recasing a signature yields a different directory that is accepted |
| Backends.RedisFollows | cmd/agent-task-eval/live_authorization_redis.go:232-297 | request by request the Redis ledger gives the abstract counter's verdict and usage |
| Backends.FileFollows | cmd/agent-task-eval/live_authorization.go:493-574 | the file ledger follows the abstract counter as long as no output sum overflows |
| Backends.BackendsAgree | cmd/agent-task-eval/live_authorization.go:555-574 | on the same requests the two ledgers give the same verdicts if and only if no output sum overflows, and then end with equal usage |
| Checkpoint.BuildVerifies | cmd/agent-task-eval/checkpoint.go:272-287 | a freshly signed checkpoint record verifies |
| Checkpoint.CheckpointStore.Load | cmd/agent-task-eval/checkpoint.go:99-168 | loading succeeds exactly when the directory is nothing but a whole chain for the configuration, of at most TotalCases records, and restores evidence, chain hash and generation time; every file is then numbered, linked, and signed over its own body with this store's key |
| Checkpoint.ContentIsProtected | cmd/agent-task-eval/checkpoint.go:272-287 | changing any record's evidence or other content while keeping its integrity block makes loading fail |
| Checkpoint.CheckpointStore.Append | cmd/agent-task-eval/checkpoint.go:170-236 | for every combination of failing system calls: which file appears, whole and replacing nothing, what memory remembers, and what temporary is left |
| CheckpointRuns.Reachable | cmd/agent-task-eval/checkpoint.go:170-236 | the invariant holds for every interleaving of stores, faults, deaths and operator clean-ups |
| CheckpointRuns.StepsAreAppend | cmd/agent-task-eval/checkpoint.go:170-236 | the interleaved model's steps, run one after the other, do exactly what one append does for every combination of failing calls |
| CheckpointRuns.CrashConsistent | cmd/agent-task-eval/checkpoint.go:170-236 | after every run the numbered files are gap-free, none torn, one signed chain under one identity and generation time, and every store's memory is a prefix of them |
| CheckpointRuns.NeverOverwritten | cmd/agent-task-eval/checkpoint.go:226-228 | a committed record survives every later step unchanged |
| CheckpointRuns.ReopenRestores | cmd/agent-task-eval/checkpoint.go:55-168 | after every run, opening succeeds if and only if no temporary is left, there are no more records than cases and the configuration matches; it then restores exactly the committed evidence and generation time, and otherwise changes nothing |
| CheckpointRuns.OpenNeedsIdentity | cmd/agent-task-eval/checkpoint.go:69-81 | a store opens only for a complete identity |
| CheckpointRuns.ResumedGoesOn | cmd/agent-task-eval/checkpoint.go:170-236 | a resumed store's undisturbed append extends the same chain under the same identity |
| CheckpointRuns.OverrunBlocksReopen | cmd/agent-task-eval/checkpoint.go:174-177 | an append past the last case is accepted and blocks every reopening for that number of cases |
| CheckpointRuns.OverrunShows | cmd/agent-task-eval/checkpoint.go:174-177 | in every run there are no more records than cases if and only if no record past the last case was linked |
| CheckpointRuns.StoppingCallersReopen | cmd/agent-task-eval/checkpoint.go:174-177 | when no caller reports a case past the last, reopening succeeds exactly when no temporary is left and the configuration matches |
| Cost.CostIsCeiling | cmd/agent-router-eval/live_client.go:208-220 | the cost is the exact ceiling if and only if it does not saturate or the ceiling is the largest integer; it undercharges only when the true cost is out of range |
| Cost.CostMonotone | cmd/agent-task-eval/live_plan.go:306-318 | more tokens or a higher rate never cost less, saturated or not |
| Cost.SplittingCost | cmd/agent-router-eval/live_client.go:208-220 | splitting tokens over k calls never lowers the cost and adds at most k - 1 micros |
| Cost.MeteredIsWrapped | cmd/agent-router-eval/live_client.go:169-189 | for every log the report holds the true sum of the rounded costs, wrapped: exact if and only if that sum fits, negative exactly when it lies in the upper half of a 2^64 range |
| Cost.MeteredIsConservative | cmd/agent-router-eval/live_client.go:169-189 | for every log whose rounded sum fits: the report is at least the true cost if and only if no single cost is out of range, and less than 2n micros above it if and only if nothing saturates or the true cost is within 2n micros of the largest integer |
| Cost.UsageMeter.RecordUsage | cmd/agent-router-eval/live_client.go:169-189 | one response is added to its own report, totals and cost exactly the log's, the other report untouched |
| Cost.UnreportedTotals | cmd/agent-router-eval/live_client.go:178-181 | a provider that reports no totals is billed for input and output together |
| Plan.CheckedAdd | cmd/agent-task-eval/live_plan.go:320-334 | fails exactly for a negative amount or a sum out of range |
| Plan.AddProfiles | cmd/agent-task-eval/live_plan.go:198-211 | adding profiles one by one fails exactly when the true sums do not fit, and is otherwise exact |
| Plan.Finalize | cmd/agent-task-eval/live_plan.go:213-252 | the budget is the preflight, unguarded, plus all sides, guarded, in all four bounds, or a failure exactly when a side is negative or a sum does not fit |
| Plan.BuildRuntimePlan | cmd/agent-task-eval/live_plan.go:115-145 | the single-runtime bounds are the exact sums over all cases, the minimum calls included, or a failure exactly when one does not fit |
| Plan.BuildStrategyPlan | cmd/agent-task-eval/live_plan.go:147-196 | the comparison's bounds are the exact sums of three candidate roles and one stable agent per case, the minimum calls included; fails exactly for a case without a configured and supported template or a sum that does not fit |
| Plan.ProfileCostMeans | cmd/agent-task-eval/live_plan.go:295-304 | a profile is planned at its own cost bound, or else at no less than its tokens cost at either rate and exactly at one of them |
| Plan.TokenSplitFits | cmd/agent-task-eval/live_plan.go:295-304 | however a profile's tokens are split into input and output of one call, the call costs at most one micro more than planned |
| Plan.TotalIsSums | cmd/agent-task-eval/live_plan.go:198-211 | a total is, bound by bound, the sum of what the profiles say |
| Plan.RuntimeSlotsAre | cmd/agent-task-eval/live_plan.go:125-140 | a single-runtime plan has the same profile once for each case |
| Plan.StrategySlotsAre | cmd/agent-task-eval/live_plan.go:168-187 | for each case in order the template's researcher, drafter and reviewer, and its single agent |
| Plan.MinimumMeans | cmd/agent-task-eval/live_plan.go:285-293 | the fewest calls of a case by its expected outcome and tools, and of the three roles |
| PlanCoverage.ReservedBySlot | cmd/agent-task-eval/live_plan.go:213-252 | what a schedule reserves is the preflight plus exactly its slots' calls, in any interleaving |
| PlanCoverage.CoverageIsEnough | cmd/agent-task-eval/live_plan.go:260-283 | if the limits cover the plan, no foreseen schedule is refused at any step, if and only if the preflight cost sum fits 64 bits |
| PlanCoverage.FullPlanIsForeseen | cmd/agent-task-eval/live_plan.go:213-252 | making every planned call at full cost is a foreseen schedule and reserves exactly the planned calls and cost |
| PlanCoverage.CoverageIsExact | cmd/agent-task-eval/live_plan.go:260-283 | where the preflight cost fits 64 bits, the limits cover the plan if and only if no foreseen schedule is refused at any step |
| PlanCoverage.NeitherLedgerRefuses | cmd/agent-task-eval/live_authorization.go:555-574 | hence neither ledger refuses any step of a foreseen schedule |
| LiveRequests.EstimateRequest | internal/module/agent/runtime/token_counter.go:11-51 | the runner's estimate is the sum over all messages, actions and tools |
| LiveRequests.CountMeans | internal/module/agent/runtime/token_counter.go:11-25 | a text counts a quarter of its ASCII characters, rounded up, and every other character as one |
| LiveRequests.ConservativeTokens | cmd/agent-task-eval/live_authorization.go:762-790 | the client's bound is 64 plus every byte of the request, saturating |
| LiveRequests.ReservedAtMost | cmd/agent-task-eval/live_authorization.go:738-747 | a request is priced at no more than four input tokens for each estimated one, and 64 |
| LiveRequests.TurnBound | internal/module/agent/runtime/runner.go:553-612 | every turn adds an assistant message, actions and replies to the transcript: at least its exchange's growth, and at most four bytes a token less what names, arguments and replies lose |
| LiveRequests.FullTurnSize | internal/module/agent/runtime/runner.go:553-612 | for every size from that growth on there is a turn with exactly as many tokens and the most bytes |
| LiveCalls.AdmissionIsExact | internal/module/agent/runtime/runner.go:654-705 | for budgets and prices in range the runner's unguarded sums admit exactly what exact arithmetic admits |
| LiveCalls.WrappedEstimateRefused | cmd/agent-task-eval/live_authorization.go:749-755 | an estimate that does not fit turns negative and the client refuses the call itself |
| LiveCalls.FreeEstimateRefused | cmd/agent-task-eval/live_authorization.go:753-755 | a free estimate is reserved only where free calls are allowed, a negative one never |
| LiveCalls.PreflightIsPriced | cmd/agent-task-eval/live_plan.go:226-231 | the preflight is planned at the price of a call of its size |
| LiveBounds.StaysBelow | internal/module/agent/runtime/runner.go:469-497 | in every run the transcript stays small enough to leave room for the turns to come |
| LiveBounds.TraceBound | internal/module/agent/runtime/runner.go:469-612 | whatever the model answers, a run reserves at most the worst for the exchanges it had |
| LiveBounds.WorstIsReached | internal/module/agent/runtime/runner.go:469-612 | and some run of the runner, its transcript growing at every turn, reserves exactly that |
| LiveBounds.RunsReserveExactly | internal/module/agent/runtime/runner.go:469-612 | all runs of a case reserve at most a bound if and only if the worst for each feasible choice of exchanges does |
| LiveBounds.PlanBoundsReservations | cmd/agent-task-eval/live_plan.go:295-304 | a profile's planned cost bounds what a case's calls reserve, for all runs, if and only if it covers that worst |
| LiveBounds.LimitsSuffice | cmd/agent-task-eval/live_authorization.go:734-760 | once the preflight fits and the call limit covers the steps, no run of a case is cut short by the ledger if and only if the rest of the cost limit covers that worst |
| LiveGap.ReservationsOutgrowPlan | cmd/agent-task-eval/live_plan.go:295-304 | for every message of 4n characters and every k up to 62, whether the profile is bounded by tokens or by cost, a run of k+1 calls that the runner admits reserves (k+1)(4n+68+output+21k) micros against a planned n+13+25k+output |
| Feed.ValidRows | cmd/feed-read-acceptance/capacity.go:153-167 | accepts exactly pages of undeleted rows the viewer may see, each strictly below the one before it and the first below the cursor |
| Feed.CollectAuthors | cmd/feed-read-acceptance/capacity.go:112-118 | every author but the viewer, once, in order of appearance |
| Feed.AuthorsExactly | cmd/feed-read-acceptance/capacity.go:112-118 | that list has no repeats and misses nobody |
| Feed.ReadPage | cmd/feed-read-acceptance/capacity.go:98-131 | one page with its lookahead row: accepted exactly when valid and followed, and what it keeps |
| Feed.WalkOn | cmd/feed-read-acceptance/capacity.go:137-141 | the cursor moves strictly down and never becomes 0, the head |
| Feed.ReadJourney | cmd/feed-read-acceptance/capacity.go:75-151 | over a fixed list a journey shows exactly the first pages * limit rows below the cursor, truncated if and only if rows remain, and succeeds exactly when the list, the minimum sizes and the close allow it; over any session a success shows acceptable, strictly descending rows |
| Migrate.ScanCollection | cmd/agent-memory-migrate/main.go:244-265 | scrolling terminates and visits every point exactly once, in order |
| Migrate.MigrateCollection | cmd/agent-memory-migrate/main.go:121-156 | after a success every point with a vector and an ID is in the target under its ID with its own vector and remaining payload, owned by the user, under the shared schema, with origin and its own time, every other ID is as it was, and the counts are exact; a failed request leaves a prefix of that; a dry run writes nothing |
| Migrate.CountMissing | cmd/agent-memory-migrate/main.go:219-232 | the count is the size of the set difference |
| Migrate.VerifyUser | cmd/agent-memory-migrate/main.go:176-242 | missing and unexpected counts are the exact set differences, and verified holds exactly when both sides agree under the shared schema |
| Migrate.InOrderMeans | cmd/agent-memory-migrate/main.go:219-241 | verified means that the IDs worth moving are exactly the IDs the user owns and each is under the shared schema |
| Migrate.MovedExactly | cmd/agent-memory-migrate/main.go:121-156 | a migration rewrites exactly the user's movable IDs |
| MigrateUsers.MigrationVerifies | cmd/agent-memory-migrate/main.go:158-242 | after migrating distinct users all verify if and only if their movable IDs are pairwise disjoint and no foreign points were there |
| MigrateUsers.RerunKeeps | cmd/agent-memory-migrate/main.go:121-156 | migrating again at the same time changes nothing, and at any time verifies exactly when the first run did |
| MigrateUsers.ResumedMigration | cmd/agent-memory-migrate/main.go:121-156 | a migration that broke off anywhere and is then run to its end leaves what one uninterrupted run leaves |
| MigrateUsers.MigrateEveryone | cmd/agent-memory-migrate/main.go:106-118 | everyone before the first failure is migrated in full, that user in part, nobody after; no collection is deleted that was not migrated, and a full run with deletion deletes them all |
| MigrateUsers.VerifyEveryone | cmd/agent-memory-migrate/main.go:158-174 | the report is verified exactly when every user is in order |
| Manifest.Load | internal/releaseplan/manifest.go:204-242 | a catalog loads exactly when every component is well-formed, unique and readable |
| ManifestMeaning.LoadedCatalog | internal/releaseplan/manifest.go:204-242 | what a loaded catalog says of its version, size and every component |
| Manifest.NewImage | internal/releaseplan/manifest.go:243-265 | an image receipt is accepted exactly when its identity, bases and catalog match |
| Manifest.EnvironmentExactly | internal/releaseplan/manifest.go:346-350 | the image environment has one entry per component, its image's pinned reference |
| Manifest.SnapshotInputs | internal/releaseplan/manifest.go:371-391 | walking the sorted paths and skipping one that repeats its predecessor lists the digest of every input once, or fails exactly when one is unreadable or there are too many migrations |
| ManifestChecks.ExactFiles | internal/releaseplan/manifest.go:283-305 | comparing the number of entries, each name and each kind decides that the directory holds exactly the expected receipt files |
| ManifestChecks.CollectImages | internal/releaseplan/manifest.go:324-350 | the receipts in catalog order, refused exactly when one is wrong or candidate and published images are mixed |
| ManifestChecks.Assemble | internal/releaseplan/manifest.go:306-370 | a manifest is assembled exactly when the tree is ready, and is then the one determined by the tree |
| ManifestChecks.MatchImages | internal/releaseplan/manifest.go:414-424 | the recorded images match the catalog one by one, with the environment they imply |
| ManifestChecks.Verify | internal/releaseplan/manifest.go:395-439 | verification accepts exactly the manifests that describe the tree as it is |
| ManifestMeaning.AcceptedImage | internal/releaseplan/manifest.go:414-424 | each image is its component's, from the manifest's source under the present catalog, in a repository named after it, on acceptable bases, uniformly published, and referenced by its variable |
| ManifestMeaning.AcceptedChecks | internal/releaseplan/manifest.go:425-430 | all nine checks, in order, passed, for the same source, with valid evidence digests |
| ManifestMeaning.AcceptedInputs | internal/releaseplan/manifest.go:440-457 | the recorded digest of the catalog, every Dockerfile and every migration is that of the file as it is |
| ManifestMeaning.NamedInputs | internal/releaseplan/manifest.go:440-457 | the fixed release inputs, each by its path |
| ManifestSafety.DriftIsDetected | internal/releaseplan/manifest.go:395-439 | an assembled manifest is accepted in a later tree if and only if every input still reads the same, no migration came or went, and publication is as required |
| ManifestSafety.AssembleThenVerify | internal/releaseplan/manifest.go:306-439 | written beside its inputs, a fresh manifest verifies if and only if it is readable, is not itself a migration, and is published when that is required |

## Left out

- Command-line parsing, configuration files and service wiring: no property beyond their own branches.
- Real cryptography, JSON codecs and regular expressions: symbolic, or predicates given as parameters.
- Network clients, timeouts, cancellation and wall-clock measurement, including `distribution` and `measure`.
- Redis trimming the stream and key expiry times: any loss of any key at any moment is covered instead.
- Power loss that undoes synced or linked files: a crash is the death of a process.
- The directory listing of a checkpoint is one step; the file ledger's listing is modelled as non-atomic.
- LiveBounds.RunsReserveExactly: for budgets and prices whose sums fit a machine integer; beyond that the client refuses
  by itself (LiveCalls.WrappedEstimateRefused) and what providers report could wrap the runner's own sums.
- LiveBounds.PlanBoundsReservations: the same range.
- LiveBounds.LimitsSuffice: the same range.
- Price tables with several reachable models: a call is priced by one model's rates.
- A workflow-wide budget tracker shared by concurrent branches: each profile's run is admitted on its own.
- The trimming and lower-casing of identity text before a checkpoint is opened: identities are taken as normalized.
- A migration's sample lists of mismatched IDs, and server errors during verification.
- Unicode white space in point IDs: a blank ID consists of spaces.
- Path traversal and symbolic links in release paths: unreadable paths are missing files.
- FileStore.AppendReservation: does not promise success under contention, since the source gives up after 32 lost races.
- Cost.SplittingCost: for totals that do not saturate, since a saturated total says nothing about its parts.
