# Verified model of the marketing platform's core protocols

A Dafny 4.11 project. `dafny verify dfyconfig.toml` checks all of it. It models the parts of the
repository where several steps, several actors or several tables have to agree, and proves what they
keep over every run or every input.

- `RateLimiter`: the Redis fixed-window limiter. INCR and EXPIRE are separate steps; requests
  interleave between them and workers die between them. Time is in milliseconds.
- `MetaSyncLock`, `Backoff`: the per-connection Meta sync lock with its TTL, compare-and-delete
  release, job timeout, retries and crashes, as a timed transition system.
- `ResearchRetry`: the two attempt limits of a research collection job, and its cancellation.
- `ApiClient`: the single-flight token refresh of the web client, over the callbacks of the event loop.
- `Ddl`, `RoundTrip`, `Migration0001` to `0006`, `0011`, `0024`, `MigrationChain`: a language of schema
  changes with the dependencies PostgreSQL tracks, general lemmas on undoing scripts, and the real
  migrations statement by statement. `SchemaNames` numbers the names they use in order of first use.
- `Installing`, `InstallTables`, `EmptyDatabase`: that those scripts apply. A schema is followed by how many
  tables, columns and index names it has used so far, table by table, from the empty database on.
- `HierarchyIndex`: the unique index over the advertising hierarchy, which the delete model rests on, comes
  out of those scripts.
- `MetricFacts`, `HierarchyDeletes`, `Rollup`: the `metric_facts` view, what SET NULL deletes do to it,
  and the roll-ups read from it.
- `LinkEncoding`, `DecimalAlgebra`, `LocalePath`: three small algebras.

The protocols that change state in the source are modelled twice: as a transition function, about
which the lemmas speak, and as a class whose methods update fields as the source does. Each class has a
method `Play` whose contract says that any schedule on the object goes through the states of the
transition function, so the lemmas hold of the object.

What is true of the environment is a parameter or an event: clocks, crashes, the answers of servers,
what a provider call does (`run_sync` succeeds, raises an authentication, transient or other error, or is
cut off), whether an event handler throws. Tokens are assumed fresh and Redis commands atomic.

## Where the code and its comments differ

- The comment on the lock TTL says it is above the job timeout (worker.py:50); the two constants are
  equal. `MetaSyncLock.DeployedExclusion` says what that costs.
- The comment on the refresh says pending callers fail fast after a failure (api-client.ts:66-70); the
  code fetches a second time, without a token (106-109). It also says handlers are notified exactly once;
  that holds up to the first handler that throws. `ApiClient.CallsEnd` and `FailureAccounting` state both;
  `HandlerSilenced` is such a run.
- The documentation of the metrics says higher grains are roll-ups of the ad rows (0006_metrics.py:10-13).
  Once an ad is deleted its rows are no ad rows any more, and the totals lose them:
  `HierarchyDeletes.AdTotalsKeptIff`, and `SpendDisappears` for an example.
- A cancelled research job may end as completed or failed: `ResearchRetry.CancelSticksIff`, and `CancelOvertaken`
  for an example. So may a job that arq has given up: `ClosedUnreturned`.
- `stripLocale` removes the prefix wherever it first occurs: `LocalePath.LeftAloneIff`, and
  `OtherPathChanged` for an example.

## Model

| member | source | states |
|---|---|---|
| RateLimiter.SlidingBound | apps/api/src/core/dependencies.py:176-186 | for every interleaving of INCR, EXPIRE, expiry and worker deaths, no half-open interval of n * window_seconds seconds holds more than (n + 1) * limit - 1 admitted requests of a key: 2 * limit - 1 for one window, sharper than twice the limit |
| RateLimiter.SlidingBoundIsTight | apps/api/src/core/dependencies.py:176-186 | for every limit, window and n some run admits exactly (n + 1) * limit - 1 requests within n window lengths, so the bound cannot be lowered |
| RateLimiter.RunKeepsInv | apps/api/src/core/dependencies.py:181-183 | every reachable key state: lifetimes last at least one window, at most one EXPIRE is owed, the admitted requests of a lifetime are counted exactly |
| RateLimiter.OneOpenerPerLife | apps/api/src/core/dependencies.py:181-182 | in each counter lifetime exactly one request reads 1 |
| RateLimiter.ExpireHitsOwnLife | apps/api/src/core/dependencies.py:182-183 | an EXPIRE always lands on the lifetime its own INCR opened |
| RateLimiter.GoneAfterWindow | apps/api/src/core/dependencies.py:182-183 | once an owed EXPIRE has come through, in any reachable key, the key is absent for the next command exactly when 1000 * window_seconds milliseconds have passed |
| RateLimiter.LivesForItsWindow | apps/api/src/core/dependencies.py:182-184 | and whatever other commands follow, its lifetime lasts exactly those seconds from the EXPIRE on |
| RateLimiter.LogIsComplete | apps/api/src/core/dependencies.py:181 | every INCR of a run is counted, in order, under its own request and time |
| RateLimiter.RefusedOnlyWhenFull | apps/api/src/core/dependencies.py:184-186 | a request is refused if and only if `limit` others of its lifetime were admitted before it |
| RateLimiter.DeadlineNeverMoves | apps/api/src/core/dependencies.py:182-184 | once set, the deadline of a lifetime is moved by no later request, admitted or refused |
| RateLimiter.RecoversIff | apps/api/src/core/dependencies.py:181-183 | exactly when a present key can ever disappear again: its expiry is armed, or the request that opened it still lives to arm it |
| RateLimiter.DeathLocksOut | apps/api/src/core/dependencies.py:181-183 | whenever the request that owes the EXPIRE dies, in any reachable state and any lifetime, the key never disappears again: it goes on to admit what is left of `limit` in that lifetime and from then on nobody |
| RateLimiter.KeysAreIndependent | apps/api/src/core/dependencies.py:179-181 | a key behaves as if it were alone: its state is the run of its own commands and the clock |
| RateLimiter.KeyNameInjective | apps/api/src/core/dependencies.py:179-180 | two requests share a counter if and only if client address and path agree |
| RateLimiter.LimiterKey.Increment | apps/api/src/core/dependencies.py:181 | INCR on a live key counts on, on an absent or expired one starts at 1 without a deadline |
| RateLimiter.LimiterKey.ExpireCommand | apps/api/src/core/dependencies.py:182-183 | EXPIRE arms a live key once and does nothing to an absent one |
| RateLimiter.LimiterKey.Check | apps/api/src/core/dependencies.py:176-186 | one undisturbed call, whoever else still owes an EXPIRE, is INCR then EXPIRE and passes if and only if its own count is within the limit; in the test environment it does nothing |
| RateLimiter.LimiterKey.Play | apps/api/src/core/dependencies.py:176-186 | any schedule of commands on the mutable key goes through the states of the transition system |
| Backoff.DeferMonotone | apps/api/src/core/worker.py:62-67 | whatever the retry counter holds, the delay is within 5..300 s and never shrinks with the attempt |
| Backoff.DeferByReading | apps/api/src/core/worker.py:62-67 | a counter that cannot be read gives 5 s; one that can gives 5 s, doubled with each attempt after the first, up to the cap |
| Backoff.DeferCap | apps/api/src/core/worker.py:67 | the cap of 300 s is reached if and only if seven or more attempts were made |
| Backoff.TotalDeferClosed | apps/api/src/core/worker.py:67 | the delays after n attempts add up to 5 * (2^n - 1) for n up to 6 and to 315 + 300 * (n - 6) beyond |
| MetaSyncLock.MutualExclusionIff | apps/api/src/core/worker.py:156-201 | over every run of any number of jobs, at most one job per connection is inside run_sync at a time, if and only if the lock's TTL covers the job timeout plus the delay with which a timed-out body really stops |
| MetaSyncLock.DeployedExclusion | apps/api/src/core/worker.py:46-50 | with the deployed constants (TTL and timeout both 30 minutes, the TTL not above it) exclusion holds if and only if that delay is zero |
| MetaSyncLock.Overlap | apps/api/src/core/worker.py:163-167 | a concrete run in which two syncs of one connection overlap when the TTL is too short |
| MetaSyncLock.OnlyOwnerReleases | apps/api/src/core/worker.py:51-56 | within its TTL a lock entry disappears if and only if the job that drew its token released it |
| MetaSyncLock.ForeignReleaseHarmless | apps/api/src/core/worker.py:147-153 | a late release by another job leaves the entry and the job inside run_sync untouched |
| MetaSyncLock.BlockedAtMostTtl | apps/api/src/core/worker.py:147-167 | a crash blocks a connection no longer than the TTL: from any reachable world, after any continuation that lasts that long, either some job has taken the lock in the meantime or the entry is gone and the next job that asks enters run_sync |
| MetaSyncLock.RetryHonoursBackoff | apps/api/src/core/worker.py:189-201 | after a transient failure the job stays off the provider for its backoff, between 5 and 300 s, whether or not its release of the lock got through |
| MetaSyncLock.DeferralsAddUp | apps/api/src/core/worker.py:62-74 | over any run, restarts included, all the delays that the failures of one job set add up to no more than those of max_tries attempts in a row, 75 s with the source's four tries |
| MetaSyncLock.DeferralsInOrder | apps/api/src/core/worker.py:62-74 | the k-th deferral of a job that is never restarted by arq sets the k-th delay of the backoff |
| MetaSyncLock.PhaseTold | apps/api/src/core/worker.py:156-201 | over every run, a job's phase is told by its own steps: its connection, how often and when it was started, what its body came to, the very millisecond a retry is due, and that a cut-off job has its release to come exactly if it had asked for the lock |
| MetaSyncLock.NextStepIff | apps/api/src/core/worker.py:156-201 | over every run, what a job can do next is settled by its own steps and the clock, in both directions: lock only in time after a start, sync only with the lock, cut-off only when overdue, release only after the body has ended, start only when due |
| MetaSyncLock.OutcomeIff | apps/api/src/core/worker.py:171-197 | a job is over with an outcome if and only if it has released and the last of its steps that decided anything was that of the outcome: the sync returned, the connection was marked, or another error came |
| MetaSyncLock.ReconnectIff | apps/api/src/modules/integrations/service.py:895-910 | a connection is flagged for reconnecting if and only if some job on it, its credentials rejected, has found it there to flag |
| MetaSyncLock.Worker.SetNx | apps/api/src/core/worker.py:163 | SET NX PX: takes the entry if and only if no younger one is there, and changes no other connection |
| MetaSyncLock.Worker.CompareAndDelete | apps/api/src/core/worker.py:51-56 | the script deletes the entry if and only if it is present with our token |
| MetaSyncLock.Worker.BeginBody | apps/api/src/core/worker.py:156-162 | arq's counter check, a fresh token and the start of the job's clock |
| MetaSyncLock.Worker.Acquire | apps/api/src/core/worker.py:163-167 | the job enters run_sync with the lock or is skipped without changing it |
| MetaSyncLock.Worker.Finish | apps/api/src/core/worker.py:198-201 | the finally block: release, best effort, then the outcome |
| MetaSyncLock.Worker.MarkReconnectRequired | apps/api/src/modules/integrations/service.py:895-910 | flags the connection before the exception goes on, unless there is no Meta connection of that id |
| MetaSyncLock.Worker.Play | apps/api/src/core/worker.py:156-201 | any schedule played on the mutable worker goes through the states of the transition system |
| ResearchRetry.BodyRunsAtMostThrice | apps/api/src/core/worker.py:260-262 | the collecting body runs at most three times, whatever crashes, errors and cancellations come in between any two commits |
| ResearchRetry.ThirdTransientFails | apps/api/src/core/worker.py:220-228 | when the worker comes to settle a third transient failure it closes the row as failed with its completion time, and nothing that happens later, its own death included, changes the row |
| ResearchRetry.CutOffIff | apps/api/src/core/worker.py:221-229 | arq's cut-off comes into play if and only if the third run died; the two limits never disagree otherwise |
| ResearchRetry.ClosedIffDecided | apps/api/src/modules/research/collection/service.py:149-262 | while no body is running, the row of a job nobody cancelled is closed if and only if the last run that committed anything committed a verdict, returned or not, and else says running or queued as that run left it; it has a completion time if and only if some run committed a verdict |
| ResearchRetry.RowTold | apps/api/src/modules/research/collection/service.py:138-262 | over every run, cancelled or not, the row is told by the last event that committed anything: completed if and only if the pages were stored, failed if and only if there was no source, the collection was rejected or a third transient failure was settled; its completion time is that of the last event that closed it and its attempts count the openings |
| ResearchRetry.RunMovesOn | apps/api/src/modules/research/collection/service.py:149-262 | a run goes on from point to point whatever the row says by then, and events out of turn do not move it |
| ResearchRetry.ReturnedIsClosed | apps/api/src/modules/research/collection/service.py:149-262 | a body that returned has left its row closed, with a completion time, cancelled or not |
| ResearchRetry.ClosedUnreturned | apps/api/src/modules/research/collection/service.py:247-253 | a concrete run that arq gives up although the row says completed: the third run dies between its last commit and its return |
| ResearchRetry.StaleCompletion | apps/api/src/modules/research/collection/service.py:161-164 | a concrete run that leaves a row running for ever with the completion time of an earlier run |
| ResearchRetry.CancelSticksIff | apps/api/src/modules/research/collection/service.py:138-164 | a cancellation is final if and only if no run is under way that has yet to write the row: a run writes over it from its first read on, except a requeued run with tries to spare |
| ResearchRetry.CancelOvertaken | apps/api/src/modules/research/collection/service.py:138-164 | a concrete run in which a job cancelled while it is collecting ends up completed |
| ResearchRetry.Job.Begin | apps/api/src/modules/research/collection/service.py:149-154 | one start by arq: its counter check, then run_job reads the row and leaves a cancelled one alone |
| ResearchRetry.Job.OpenRow | apps/api/src/modules/research/collection/service.py:155-164 | the first commit of run_job: failed without a source, else running and one attempt more |
| ResearchRetry.Job.SettleTransient | apps/api/src/core/worker.py:220-229 | after run_job has requeued the row: fail or retry by the counter |
| ResearchRetry.Job.Cancel | apps/api/src/modules/research/collection/service.py:138-146 | closes an open job and leaves a closed one alone |
| ResearchRetry.Job.Play | apps/api/src/core/worker.py:212-232 | any order of events played on the mutable job goes through the states of the transition system |
| ApiClient.SingleFlight | apps/web/src/lib/api-client.ts:49-86 | in every interleaving at most one refresh is under way, and the slot is empty if and only if none is |
| ApiClient.RefreshesBounded | apps/web/src/lib/api-client.ts:106-109 | there are never more refreshes than first answers that were 401 |
| ApiClient.JoinersAgree | apps/web/src/lib/api-client.ts:71-86 | all callers that waited for a refresh saw the same result, the one it settled with |
| ApiClient.JoinsTheOpenFlight | apps/web/src/lib/api-client.ts:71-86 | in every reachable page, a first 401 that may be retried makes the call wait for the refresh under way, adding none, and starts one only if none is; any other first answer ends the call |
| ApiClient.CallTold | apps/web/src/lib/api-client.ts:88-109 | over every run a call is told by its own callbacks: the first fetch carries the token of the moment, a retriable 401 makes it wait for that refresh, then comes the second fetch with the token stored by then, unless a handler threw |
| ApiClient.DoneAloneIff | apps/web/src/lib/api-client.ts:106-130 | a call ended without waiting for a refresh if and only if its first answer was no 401 or it was not to retry |
| ApiClient.FlightTold | apps/web/src/lib/api-client.ts:51-84 | over every run a refresh succeeds if and only if its answer was 2xx and its body had a token, and goes from posting to closed through its callbacks in order |
| ApiClient.TokenTold | apps/web/src/lib/api-client.ts:25-29 | the stored token is what the last login, logout, refreshed body or failed refresh made it |
| ApiClient.HandlersInTurn | apps/web/src/lib/api-client.ts:37-43 | the handlers stand in the order of their registrations |
| ApiClient.RegisteredIff | apps/web/src/lib/api-client.ts:37-43 | a handler is there if and only if it was registered and not unregistered since |
| ApiClient.MayRunIff | apps/web/src/lib/api-client.ts:49-130 | over every run a callback may run if and only if the earlier ones of its own call or refresh have: a call can always be made, and a waiting call resumes when its refresh is through and not before |
| ApiClient.CallsEnd | apps/web/src/lib/api-client.ts:88-109 | a call takes at most four callbacks and issues at most two fetches of its path, counted over the run; once it is through it has issued two if and only if the refresh it joined settled with a verdict, a failed one included |
| ApiClient.NoCallHangs | apps/web/src/lib/api-client.ts:49-109 | no call waits for ever: in every reachable page a call that is not done has a callback due, its own or that of the refresh it waits for; each such callback brings its end nearer, nothing else puts it off, and after at most eight of them it is done |
| ApiClient.SuccessIsSilent | apps/web/src/lib/api-client.ts:73-80 | a successful or pending refresh notifies nobody and does not clear the token |
| ApiClient.FailureAccounting | apps/web/src/lib/api-client.ts:74-80 | a failed refresh posts once, clears the token, then calls the handlers registered at that moment in order, each at most once; a handler is called if and only if none before it throws |
| ApiClient.FailureHasAudience | apps/web/src/lib/api-client.ts:39-47 | every failed refresh has such a list of handlers, each in it once |
| ApiClient.HandlerSilenced | apps/web/src/lib/api-client.ts:74-80 | a concrete run in which the second of two handlers never hears of the failed refresh because the first throws, and the caller gets that exception |
| ApiClient.RetryCarriesVerdict | apps/web/src/lib/api-client.ts:49-109 | from the event that decides a refresh until another refresh starts, every second fetch of its joiners carries the verdict: the token of the answer after a success, none after a failure, unless a login or logout sets the token in between |
| ApiClient.Client.NotifyAuthFailure | apps/web/src/lib/api-client.ts:45-47 | calls the handlers in order up to and including the first that throws |
| ApiClient.Client.RefreshSession | apps/web/src/lib/api-client.ts:71-86 | joins the refresh under way or starts one |
| ApiClient.Client.OnDecided | apps/web/src/lib/api-client.ts:74-80 | the then callback: token cleared before the handlers, on failure only |
| ApiClient.Client.OnSettled | apps/web/src/lib/api-client.ts:81-83 | the finally callback empties the slot |
| ApiClient.Client.OnAnswer | apps/web/src/lib/api-client.ts:106-111 | a first 401 joins a refresh, any other answer ends the call |
| ApiClient.Client.OnResume | apps/web/src/lib/api-client.ts:107-109 | one second fetch without a further retry, or the handler's exception |
| ApiClient.Client.Unsubscribe | apps/web/src/lib/api-client.ts:40-43 | removes just this handler and keeps the order of the others |
| ApiClient.Client.Play | apps/web/src/lib/api-client.ts:49-130 | any order of callbacks played on the mutable client goes through the states of the model |
| Ddl.StatementKeepsSound | apps/api/alembic/versions/0004_integration_core.py:105-234 | every legal schema change keeps every constraint, index and view referring to existing columns and keys |
| Ddl.ScriptKeepsSound | apps/api/alembic/versions/0005_meta_ads.py:41-327 | after every single statement of a script that runs, no reference dangles |
| Ddl.OldKeySurvives | apps/api/alembic/versions/0001_initial.py:123-128 | a drop is legal only if every foreign key that stays still finds its key |
| RoundTrip.DeclaredStays | apps/api/alembic/versions/0005_meta_ads.py:41-327 | in any script that runs, whatever a statement declares (table, column with its references, constraint, index with keys, uniqueness and partial predicate, view) is there in the end just as declared, unless a later statement drops it, its table or a column it uses |
| RoundTrip.DropTwiceFails | apps/api/alembic/versions/0001_initial.py:123-128 | dropping what is no longer there is an error, except for the view |
| RoundTrip.UniqueServesAsKey | apps/api/alembic/versions/0005_meta_ads.py:41-50 | foreign keys may refer to a unique constraint as to a primary key, which is why dropping one, as 0005 does, can be illegal |
| RoundTrip.UndoRestores | apps/api/alembic/versions/0011_research_collection.py:20-197 | INVERSION: any legal additive statement on any sound schema is taken back exactly, column order included |
| RoundTrip.IndexGoesWithTable | apps/api/alembic/versions/0001_initial.py:123-128 | dropping a table gives the same schema whether or not an index of it was dropped first |
| RoundTrip.ReversalRestores | apps/api/alembic/versions/0001_initial.py:19-128 | a downgrade that undoes statement by statement, letting tables take their indexes along, restores every sound schema exactly |
| RoundTrip.MirrorRestores | apps/api/alembic/versions/0024_creative_test_lifecycle.py:30-105 | a downgrade that is the upgrade backwards, inverse by inverse, restores every sound schema exactly |
| RoundTrip.ReplaceAndBack | apps/api/alembic/versions/0002_roles_org_fk_cascade.py:24-43 | replacing a foreign key and replacing it back gives the key the downgrade names, whatever was there before |
| RoundTrip.AroundMirror | apps/api/alembic/versions/0005_meta_ads.py:41-327 | a unique constraint dropped first and re-created last, around a mirrored script: exactly that constraint is what can differ |
| RoundTrip.CreatedTableStays | apps/api/alembic/versions/0001_initial.py:19-121 | a table created by a script keeps its columns, checks and keys while the rest of the script spares it |
| MigrationChain.RoundTrip0001 | apps/api/alembic/versions/0001_initial.py:19-128 | 0001 up and down restores every sound schema it applies to |
| MigrationChain.RoundTrip0002 | apps/api/alembic/versions/0002_roles_org_fk_cascade.py:24-43 | 0002 up and down gives the schema with a NO ACTION key, which is the schema it started from if and only if the key was that before |
| MigrationChain.RoundTripCanFail | apps/api/alembic/versions/0002_roles_org_fk_cascade.py:24-43 | a concrete schema, its key CASCADE already, that 0002 up and down does not restore |
| MigrationChain.RoundTrip0003 | apps/api/alembic/versions/0003_business_intelligence.py:27-246 | 0003 up and down restores every sound schema it applies to |
| MigrationChain.RoundTrip0004 | apps/api/alembic/versions/0004_integration_core.py:29-234 | 0004 up and down restores every sound schema it applies to |
| MigrationChain.RoundTrip0005 | apps/api/alembic/versions/0005_meta_ads.py:41-327 | 0005 up and down restores the schema if and only if its connection uniqueness was (business, provider) before |
| EmptyDatabase.RoundTrip0005CanFail | apps/api/alembic/versions/0005_meta_ads.py:41-327 | a concrete schema, revision 4 with the account constraint widened under its old name, that 0005 up and down does not restore |
| MigrationChain.RoundTrip0006 | apps/api/alembic/versions/0006_metrics.py:158-171 | 0006 up and down restores every sound schema it applies to |
| MigrationChain.RoundTrip0011 | apps/api/alembic/versions/0011_research_collection.py:20-197 | 0011 up and down restores every sound schema it applies to: columns with foreign keys, tables, indexes and late unique constraints |
| MigrationChain.RoundTrip0024 | apps/api/alembic/versions/0024_creative_test_lifecycle.py:30-105 | 0024 up and down restores every sound schema it applies to |
| MigrationChain.ChainSettles | apps/api/alembic/versions/0005_meta_ads.py:41-327 | for every stretch of a chain, up and down again runs to its end and gives a known schema: only the first migration of the stretch matters |
| MigrationChain.ChainRoundTripIff | apps/api/alembic/versions/0002_roles_org_fk_cascade.py:24-43 | for every stretch i to j of 0001 to 0006 and every sound schema it applies to, up and down restores the schema if and only if the constraint that migration i+1 replaces was in its original form; no condition unless i is 1 or 4 |
| MigrationChain.ChainNeverDangles | apps/api/alembic/versions/0001_initial.py:123-128 | from a sound schema on which a stretch applies: every statement of the way back is legal in the order written, and after each single one, up or down, no reference dangles |
| EmptyDatabase.ChainApplies | apps/api/alembic/versions/0001_initial.py:19-121 | an empty database can be upgraded to each of the revisions 1 to 6: every statement of the real scripts is legal in the order written |
| EmptyDatabase.EmptyUpAndBack | apps/api/alembic/versions/0001_initial.py:19-128 | an empty database upgraded to any of these revisions and downgraded again is empty exactly as it was, and after each single statement on the way no reference dangles |
| HierarchyIndex.UniqueAfter0005 | apps/api/alembic/versions/0005_meta_ads.py:275-290 | wherever 0005 applies it leaves the unique index over the eight hierarchy keys, the last three coalesced |
| HierarchyIndex.UniqueFromEmpty | apps/api/alembic/versions/0005_meta_ads.py:275-290 | an empty database upgraded to revision 5 or 6 has that index |
| HierarchyIndex.IndexMeansUnique | apps/api/alembic/versions/0005_meta_ads.py:275-290 | rows meet that index if and only if they are unique in the sense of the delete model, NULL equal to NULL |
| EmptyDatabase.Applies0011 | apps/api/alembic/versions/0011_research_collection.py:20-197 | there is a sound schema on which 0011 applies, and it comes back exactly |
| EmptyDatabase.Applies0024 | apps/api/alembic/versions/0024_creative_test_lifecycle.py:30-105 | there is a sound schema on which 0024 applies, and it comes back exactly |
| MigrationChain.Database.Execute | apps/api/alembic/env.py:43-46 | a script runs as a whole or changes nothing |
| MigrationChain.Database.Migrate | apps/api/alembic/env.py:43-46 | moving to a revision applies exactly the scripts between, in order, or changes nothing |
| MigrationChain.Database.UpAndDown | apps/api/alembic/env.py:43-46 | an upgrade and the downgrade after it always bring the revision back, and the schema if and only if the condition above holds |
| MetricFacts.OneRowEach | apps/api/alembic/versions/0006_metrics.py:41-153 | the view has one row for each insight, order and order item, and (source_type, source_id) tells them apart |
| MetricFacts.RowsAreFiled | apps/api/alembic/versions/0006_metrics.py:41-153 | every row of the view is filed under what its base row says: business, provider, day, currency, hierarchy, and an item under its product |
| MetricFacts.JoinedOnce | apps/api/alembic/versions/0006_metrics.py:152-153 | the join gives each item exactly its order's row: it neither loses nor multiplies items |
| MetricFacts.ViewAgrees | apps/api/alembic/versions/0006_metrics.py:41-153 | VIEW CONSERVATION: any column summed over any selection of the view is what the base tables hold, NULL exactly where they hold nothing |
| MetricFacts.SpendConserved | apps/api/alembic/versions/0006_metrics.py:71 | all spend of ad_insights is in the view once, whatever the grain of its rows |
| MetricFacts.RevenueConserved | apps/api/alembic/versions/0006_metrics.py:93-105 | revenue at business grain is the sum of the order totals |
| MetricFacts.LinesConserved | apps/api/alembic/versions/0006_metrics.py:132-144 | revenue at product grain is the sum of the line totals |
| MetricFacts.RefundsWithinRevenue | apps/api/alembic/versions/0006_metrics.py:107-111 | in every scope refunds are between zero and revenue, and NULL together with it |
| MetricFacts.AdTotalsAgree | apps/api/src/modules/metrics/aggregation.py:74-102 | advertising totals are those of the insights that still have their ad, NULL if there is none |
| MetricFacts.CommerceTotalsAgree | apps/api/src/modules/metrics/aggregation.py:105-121 | commerce totals are those of the orders alone: items are never added on top |
| MetricFacts.CountsAgree | apps/api/src/modules/metrics/aggregation.py:97-115 | the row counts read beside the totals are the numbers of those insights and of those orders, 0 and not NULL where there is none |
| HierarchyDeletes.DeletesKeepSound | apps/api/alembic/versions/0005_meta_ads.py:253-290 | any sequence of deletes keeps the foreign keys and the NULL-safe uniqueness |
| HierarchyDeletes.DeleteTouchesOnly | apps/api/alembic/versions/0005_meta_ads.py:253-268 | an accepted delete removes its target and nothing else, and clears just the references to it |
| HierarchyDeletes.ParentsStay | apps/api/alembic/versions/0005_meta_ads.py:100-190 | ads and ad sets that stay keep their parents, except that those below the target have no such parent any more |
| HierarchyDeletes.RefusedIff | apps/api/alembic/versions/0005_meta_ads.py:275-290 | a delete is refused if and only if one of the target's insights would become another insight of that account and day that has lost its reference before |
| HierarchyDeletes.SecondDeleteRefused | apps/api/alembic/versions/0005_meta_ads.py:265-290 | of two ads of one ad set with insights on the same day, the second cannot be deleted once the first is |
| HierarchyDeletes.DeletesFade | apps/api/alembic/versions/0005_meta_ads.py:256-268 | no sequence of deletes loses an insight or changes what it reports; references are kept or cleared |
| HierarchyDeletes.AccountsConserved | apps/api/alembic/versions/0006_metrics.py:41-78 | after any sequence of deletes every measure of every ad account comes to the same in the view |
| HierarchyDeletes.CoarserOnly | apps/api/alembic/versions/0006_metrics.py:53-58 | rows move to coarser grains only |
| HierarchyDeletes.AdTallyLoses | apps/api/src/modules/metrics/aggregation.py:74-102 | exactly what the advertising totals lose: the rows in scope that lost their ad |
| HierarchyDeletes.AdTotalsKeptIff | apps/api/src/modules/metrics/aggregation.py:87-93 | over any sequence of deletes the advertising totals of every scope are unchanged if and only if none of the deletes is, at its turn, an accepted one of an ad that has insights |
| HierarchyDeletes.OneDeleteLosesIff | apps/api/src/modules/metrics/aggregation.py:87-93 | one delete changes them if and only if it is an accepted delete of an ad that has insights |
| HierarchyDeletes.SpendDisappears | apps/api/src/modules/metrics/aggregation.py:87-93 | a concrete hierarchy in which deleting an ad keeps the spend of its account and removes it from the advertising totals |
| HierarchyDeletes.OnlyAdsMatter | apps/api/alembic/versions/0005_meta_ads.py:256-268 | deleting ad sets and campaigns takes no insight its ad |
| Rollup.RollUp | apps/api/alembic/versions/0006_metrics.py:10-13 | grouping by a fine key and rolling up to a coarser one is grouping by the coarse key, for all rows and keys |
| Rollup.GroupByCorrect | apps/api/src/modules/metrics/aggregation.py:190-214 | one group for each key of a selected row, with the SUM over just its rows |
| Rollup.GroupsAddUp | apps/api/src/modules/metrics/aggregation.py:190-214 | the groups add up to the total, whatever the key |
| Rollup.HierarchyRollsUp | apps/api/src/modules/metrics/aggregation.py:190-285 | ad, ad set and campaign roll-ups of the code are each the roll-up of the level below |
| Rollup.LevelsAddUp | apps/api/src/modules/metrics/aggregation.py:124-285 | campaign, ad set, ad and daily figures each add up to the advertising total |
| Rollup.RollupLines | apps/api/src/modules/metrics/aggregation.py:94-95 | the line of a roll-up is the total that the entity filter gives for that entity |
| Rollup.TimeseriesPoints | apps/api/src/modules/metrics/aggregation.py:124-141 | the point of the time series for a day is the total of that day |
| Rollup.ProductLines | apps/api/src/modules/metrics/aggregation.py:288-315 | the line of a product is what its own items in scope sold, and the lines add up to all items in scope |
| LinkEncoding.Bijection | apps/api/src/db/models/creative_performance.py:51-60 | the rows the two checks admit are one to one the pairs of (concept or variant) and (ad or provider creative) of a business |
| LinkEncoding.TableIsASet | apps/api/src/db/models/creative_performance.py:61-70 | after any sequence of inserts and deletes there is at most one row for each pair |
| LinkEncoding.RefusedIff | apps/api/src/db/models/creative_performance.py:51-70 | an insert is refused if and only if a check fails or the pair is there already |
| LinkEncoding.InsertAddsOne | apps/api/src/db/models/creative_performance.py:51-70 | after any changes an insert of an admitted new pair is one row more, and any other insert changes nothing |
| LinkEncoding.DeleteTakesOne | apps/api/src/db/models/creative_performance.py:61-70 | a delete takes just the row it names |
| LinkEncoding.PlainIndexNeverRefuses | apps/api/src/db/models/creative_performance.py:61-70 | without COALESCE the index would never refuse any two admitted rows |
| DecimalAlgebra.SubtractionAdjoint | apps/api/src/core/utils.py:69-76 | subtraction is the truncated inverse of addition: a - b <= c if and only if a <= b + c |
| DecimalAlgebra.SubtractionInverse | apps/api/src/core/utils.py:63-76 | a difference plus its subtrahend is the minuend where that is not negative, and the default elsewhere |
| DecimalAlgebra.SharesOfAHundred | apps/api/src/core/utils.py:79-87 | the percentages of any list of parts come to 100 if and only if the sanitised parts come to the whole |
| DecimalAlgebra.DivisionInverse | apps/api/src/core/utils.py:55-61 | a quotient times its divisor is the dividend, a percentage is a hundred times the quotient, and a zero divisor gives the default |
| DecimalAlgebra.ClampInRangeIff | apps/api/src/core/utils.py:90-104 | clamping lands within the bounds if and only if they are in order |
| DecimalAlgebra.ClampNearest | apps/api/src/core/utils.py:90-104 | with bounds in order clamping gives the value in range nearest to the input, or to the default for an unusable input |
| DecimalAlgebra.ClampCorners | apps/api/src/core/utils.py:98-104 | with bounds out of order the lower one comes first; a bound that is given but unusable is 0 |
| DecimalAlgebra.ClampLawsIff | apps/api/src/core/utils.py:90-104 | clamping is idempotent, and monotone, if and only if the bounds are in order |
| LocalePath.IndexOf | apps/web/src/lib/locale.ts:33 | the leftmost occurrence |
| LocalePath.StripsWhatWasAdded | apps/web/src/lib/locale.ts:24-34 | ROUND TRIP: stripping undoes prefixing for every path that starts with a slash and every locale |
| LocalePath.AddsWhatWasStrippedIff | apps/web/src/lib/locale.ts:24-34 | prefixing undoes stripping if and only if the locale is a whole first segment with something behind it |
| LocalePath.StaysAPathIff | apps/web/src/lib/locale.ts:31-34 | what stripping leaves starts with a slash unless the first segment only begins with the locale's letters |
| LocalePath.LeftAloneIff | apps/web/src/lib/locale.ts:31-34 | stripping leaves a path alone if and only if the prefix occurs nowhere in it, not only not in front |
| LocalePath.NeverEmpty | apps/web/src/lib/locale.ts:31-34 | stripping never leaves an empty path |
| LocalePath.NoPathLeft | apps/web/src/lib/locale.ts:31-34 | /english stripped of locale en is glish, which is no path |
| LocalePath.LaterSegment | apps/web/src/lib/locale.ts:31-34 | a later segment that begins with the letters of the locale loses them, slash and all |
| LocalePath.OtherPathChanged | apps/web/src/lib/locale.ts:31-34 | /about/enroll stripped of locale en is /aboutroll |

## Left out

- The KPI, forecasting, simulation, research and creative engines, webhook processing and `run_sync` itself.
- The creative test lifecycle: only its table checks are part of migration 0024 here.
- Authentication, sessions, HTTP headers and bodies, tenancy and permissions.
- arq is not part of this model: it is taken to count starts, refuse a body past max_tries, stop a body at its timeout and run a crashed job again. Heartbeats and queue order are left out.
- Handlers of the web client that register or unregister handlers while a notification is under way.
- Deletion of a research job's row while it is being collected.
- ResearchRetry.ClosedIffDecided: that a closed row means a body that returned, because it is false (`ClosedUnreturned`).
- ResearchRetry.Step: cancel_job and the third failure read and commit in one step, and an assignment always writes its column, where the ORM leaves out one whose value it believes unchanged.
- Migrations 0007 to 0010 and 0012 to 0023. Data-level failures of schema changes: the round trips are about schemas, not rows.
- EmptyDatabase.Applies0011: the tables that 0011 finds are cut down to their primary keys, because the migrations in between are not modelled.
- EmptyDatabase.Applies0024: likewise, `creative_tests` has its status besides.
- Columns of `metric_facts` that are NULL in every branch (sessions, product_views, add_to_cart, checkout_started, cogs, shipping_cost, payment_fees).
- Joins of the roll-up queries with names and statuses of campaigns, ad sets, ads and products, and their order of rows.
- MetricFacts.ViewAgrees: `ordered_at::date` is a given date of the order, because it depends on the session's time zone; money is counted in hundredths.
- MetricFacts.Entity: a filter on an entity's parent read from the joined table, as `ad_rollups` does, is not modelled.
- HierarchyDeletes.Delete: deletes of ad accounts, businesses and creatives, and the row-by-row order in which PostgreSQL clears references.
- `safe_multiply`, which would only add an easy member.
- DecimalAlgebra.Safe: decimal precision and rounding; arithmetic is over exact reals. The default is taken as given, as in the code, and not sanitised.
- LocalePath.StripLocale: special patterns of the replacement string, which is empty.
