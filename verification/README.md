# Hatchway control plane: a verified model

Hatchway hands out short-lived public HTTP tunnels. Its control plane keeps tunnels, one-time runtime
credentials and idempotency keys in PostgreSQL; an frps plugin activates and closes tunnels; a reaper and
sweepers run beside the requests; a retrying CLI talks to it over an unreliable network. This project models
that system in Dafny and proves what it promises.

`dafny verify dfyconfig.toml` checks everything. Statements are proofs about the model; no program was executed.

## How it is built

* **Database protocol** (`Schema`, `Lifecycle`, `ControlPlane`, `Invariant`, `Preservation`, `Commits`,
  `Reachable`, `Steps`, `Guarantees`, `Answers`, `Progress`, `Fingerprints`, `Retention`). The system is a transition system whose steps
  are single SQL statements, commit decisions, failures and clock ticks (37 kinds). Every live request, callback
  and reaper run has a program counter and a private transaction. Failure steps: a crash at any point, a panic, a
  response lost, a statement that fails before or after taking effect, a `COMMIT` whose outcome the server never
  learns and which the database decides later while its locks are still held, and bookkeeping that times out.
  `Lifecycle` also holds the handlers' statements as an imperative store (`TunnelStore`), each method proved
  against one function, `Perform`; `Commits` shows that a commit in any interleaving moves the shared tables
  exactly as `Perform` does, which is what makes the concurrent system linearisable. `Answers` says what every decision comes to and
  `Progress` that the locks leave nobody stuck.
* **Retrying client** (`RetryClient`, `EndToEnd`). The two nested retry loops are proved equal to an automaton
  over single answers; the automaton is then run against the whole control plane over a network that loses,
  delays or truncates messages or answers in the server's place.
* **Components**: the token-bucket limiter (`RateLimiter`), keyset pagination, server and client together
  (`Pagination`), the two-pass credential scan (`TokenScan`), bounded legacy verification (`LegacySlots`), issued
  hosts and the host parser (`TunnelHost`), and the recorder, codec and encodings behind replays (`ReplayCache`).

PostgreSQL is taken at its READ COMMITTED contract: `INSERT … ON CONFLICT DO NOTHING` is atomic; a statement that
meets a locked row waits and evaluates its condition again; effects become visible at commit, and row and advisory
locks go only then. `hashtextextended` is an arbitrary function of the user ID. SHA-256 is a collision-free
constructor, AES-GCM an ideal AEAD (section 2 of RFC 5116).

History variables (`issued`, the token table never swept; `log`, the lifecycle events never swept; `grants`;
`trace`) are written by steps and read by none.

Where comments and code differ the code is followed: the runtime-token sweeper's comment speaks of the age of the
terminal event, its statement uses `revoked_at` or `expires_at`. The idempotency sweeper also deletes rows still in
flight, so a request that outlives the retention window can complete a newer request's row; at-most-once survives
that, the match of response and fingerprint does not, and `Retention.RetentionIsTheLimit` says exactly when it
holds.

## Model

| member | source | states |
|---|---|---|
| Lifecycle.FoldShape | internal/server/tunnels/lifecycle.go:29-33 | a log the transition table explains opens with its creation, contains no other creation, and ends at its first expiry or revocation, which it has exactly when the status is terminal |
| Lifecycle.LastEventDecides | internal/server/tunnels/lifecycle.go:29-33 | reserved is a log of the creation alone; active, closed, expired and revoked are told by the last event |
| Lifecycle.FoldServing | internal/server/tunnels/lifecycle.go:29-33 | a log that reaches active or closed contains a NewProxy event and no terminating one |
| Lifecycle.SoundKept | internal/server/tunnels/lifecycle.go:38-264 | creation, transition, revocation and reaping keep: status explained by the log, credentials agreeing with tunnels, expired rows elapsed, lifetimes within MaxTTL |
| Lifecycle.TunnelStore.InsertEvent | internal/server/tunnels/lifecycle.go:179-191 | appends one event to one tunnel's log and changes no other |
| Lifecycle.TunnelStore.Transition | internal/server/tunnels/lifecycle.go:38-116 | the whole new state; not found, elapsed and already active occur exactly when they should; NewProxy makes a live reserved or closed row active and CloseProxy an active one closed, with one event; every refusal and the reconnect change nothing |
| Lifecycle.TunnelStore.RevokeTunnel | internal/server/tunnels/lifecycle.go:118-173 | found exactly within the owner's scope; a live tunnel becomes revoked with one event, an expired one stays expired, its unrevoked credentials and no others are revoked, and nothing else changes |
| Lifecycle.TunnelStore.MarkElapsed | internal/server/tunnels/lifecycle.go:221-246 | expires exactly the elapsed non-terminal rows and returns each of their IDs once |
| Lifecycle.TunnelStore.ReapExpired | internal/server/tunnels/lifecycle.go:210-264 | afterwards no live row is past the time; every row that was is expired, returned once and given one Expire event; every other row and log and all credentials are unchanged |
| Invariant.ProcUndisturbed | internal/server/tunnels/handlers.go:138-257 | locks make interference harmless: what a process relies on survives every step of another that respects its locks |
| Commits.CommitPerforms | internal/server/tunnels/lifecycle.go:50-111 | in any interleaving a commit moves tunnels, credentials and log exactly as its call would have, run alone at that moment |
| Commits.CommitLegal | internal/server/tunnels/lifecycle.go:56-104 | and the call is legal at that moment: fresh ID and lifetime for a creation, elapsed live rows for the reaper, a clock already read for an activation |
| Commits.CommitRows | internal/server/api/idempotency.go:158-174 | a commit leaves every completed 201 row holding a body that opens under its key and that some commit made |
| Reachable.NextKept | internal/server/tunnels/handlers.go:138-257 | each of the 37 kinds of step keeps the whole invariant |
| Reachable.RunInv | internal/server/api/idempotency.go:67-134 | every state of every run from the empty database meets it |
| Guarantees.QuotaHolds | internal/server/tunnels/handlers.go:145-194 | committed non-terminal tunnels plus rows of undecided creations never exceed MaxConcurrent, for any user, in any reachable state |
| Guarantees.AtMostOnce | internal/server/api/idempotency.go:85-134 | any two commits under one key have a sweep of that key's completed row between them; no assumption on timing |
| Guarantees.OneCommitPerRequest | internal/server/tunnels/handlers.go:254-257 | a request commits at most one tunnel, keyed or not |
| Guarantees.CommittedIsRecoverable | internal/server/api/idempotency.go:141-175 | a committed creation not swept since has a completed row with exactly its sealed response, even when its commit was reported as failed |
| Guarantees.OnlySweepForgets | internal/server/api/idempotency.go:227-261 | no release, panic release, late completion, failure or further commit removes or overwrites it; only the sweep does |
| Guarantees.ReplayServesCommit | internal/server/api/idempotency.go:177-225 | a request with that row's fingerprint is answered 201 with the committed bytes |
| Guarantees.StatusRefinesHistory | internal/server/tunnels/lifecycle.go:56-111 | in every run a tunnel's full event log folds through the table at every step to its status, and a terminating event is the last |
| Guarantees.StatusIsLastEvent | internal/server/tunnels/lifecycle.go:29-33 | in every run a tunnel is reserved iff its log is its creation alone, active iff its last event is NewProxy, closed iff CloseProxy, expired iff Expire, revoked iff Revoke |
| Guarantees.ReconnectAddsNothing | internal/server/tunnels/lifecycle.go:77-85 | a reconnect of a tunnel still active commits without a status change or an event |
| Guarantees.CredentialsFollowTunnels | internal/server/tunnels/handlers.go:178-207 | every credential expires with its tunnel, a revoked tunnel has none unrevoked, a credential is revoked only if its tunnel is revoked or expired, an expired one has elapsed, none lives beyond MaxTTL |
| Guarantees.LiveCredentialLiveTunnel | internal/server/plugin/handler.go:370-381 | an unrevoked, unexpired credential belongs to a non-terminal, unelapsed tunnel |
| Guarantees.LookupIgnoresSweeps | internal/server/plugin/handler.go:370-381 | the lookup's join filter is redundant, and it answers as if no credential had ever been swept |
| Guarantees.CommittedCredentialWorks | internal/server/tunnels/handlers.go:200-243 | the document of a committed creation names an existing tunnel with its expiry, and the lookup accepts the secret it carries, for that tunnel, if and only if the tunnel is neither revoked, expired nor elapsed |
| Guarantees.GateSafe | internal/server/plugin/authorize.go:84-93 | traffic is admitted only after the tunnel's own credential activated it under its own proxy name and subdomain, with no revoke or expiry committed, and within MaxTTL of the insert |
| Guarantees.GateExact | internal/server/plugin/authorize.go:84-93 | traffic is admitted if and only if the log has a NewProxy and no Revoke or Expire and the expiry has not passed |
| Guarantees.ShutForever | internal/server/plugin/authorize.go:84-93 | a gate shut by revocation, expiry or elapsed TTL never opens again |
| Guarantees.Linearisable | internal/server/tunnels/lifecycle.go:50-173 | every interleaving of creations, transitions, revocations and reaping leaves the tables of some serial history of whole calls in commit order, each legal in turn, each made once by a request that asked for it |
| Guarantees.StepLinearises | internal/server/tunnels/lifecycle.go:109-111 | a commit adds exactly its own call to that history and no other step adds any |
| Guarantees.NeverChangedConcurrently | internal/server/tunnels/lifecycle.go:98-104 | the "status changed concurrently" branch is unreachable |
| Guarantees.CommittedEdge | internal/server/plugin/handler.go:311-330 | a committed status write follows a table edge from the committed status whatever the unlocked read said; an activation passed its expiry check under the lock |
| Guarantees.OwnerScoped | internal/server/tunnels/lifecycle.go:131-165 | a revocation with an owner commits only against that owner's tunnel, the one asked for, and with its credentials revoked |
| Answers.ExistingRowAnswer | internal/server/api/idempotency.go:177-225 | another fingerprint is answered 409 without Retry-After, the same one in flight or a vanished row 409 with it, a completed one its stored status and body, or 500 if none was kept |
| Answers.TtlDecides | internal/server/tunnels/handlers.go:115-143 | 400 exactly for a negative lifetime or one beyond MaxTTL, otherwise a transaction begins |
| Answers.QuotaDecides | internal/server/tunnels/handlers.go:154-162 | 403 exactly when the user's own tunnels neither expired nor revoked have reached MaxConcurrent |
| Answers.InsertedRow | internal/server/tunnels/handlers.go:119-125 | the inserted row is the user's, reserved, and expires after the lifetime asked for or, without one, an hour or MaxTTL if shorter |
| Answers.ConflictDecides | internal/server/tunnels/handlers.go:171-198 | a taken ID is tried again, and the third is answered 500 |
| Answers.CommitPrepares | internal/server/tunnels/handlers.go:215-263 | a commit is sent only for a whole transaction, with the answer 201 and the tunnel's own document, or 204 for a revocation |
| Answers.AckAnswer | internal/server/tunnels/handlers.go:254-263 | an acknowledged commit is answered so, and a 201 is backed by its commit |
| Answers.RevokeMisses | internal/server/tunnels/handlers.go:433-436 | a revocation is answered 404 only if its owner has no such tunnel |
| Answers.RevokeFinds | internal/server/tunnels/lifecycle.go:131-144 | and takes the row exactly when it exists in scope and is free |
| Answers.CallbackMatches | internal/server/plugin/handler.go:283-295 | a callback with a known credential goes on exactly if both names are its tunnel's |
| Answers.CloseReads | internal/server/plugin/handler.go:311-332 | a close callback attempts the transition exactly if it reads an active tunnel |
| Answers.ClockDecides | internal/server/tunnels/lifecycle.go:62-86 | under the row lock an activation is refused exactly if the tunnel has elapsed, and is a no-op if it is active |
| Answers.ActivationWritten | internal/server/tunnels/lifecycle.go:88-104 | activation is written exactly for a reserved or closed tunnel |
| Answers.ClosingWritten | internal/server/tunnels/lifecycle.go:88-104 | closing is written exactly for an active tunnel, whatever was read before |
| Answers.RevocationWritten | internal/server/tunnels/lifecycle.go:146-159 | revocation is written exactly for a live tunnel and goes on to the credentials in any case |
| Answers.ReaperReaches | internal/server/tunnels/lifecycle.go:221-225 | a reaper that has not begun to log can take exactly the unlocked, live rows past expiry at its start |
| Answers.ReapCommits | internal/server/tunnels/lifecycle.go:221-254 | a reaper's commit expires exactly the rows it took, logs one Expire for each, and changes nothing else |
| Answers.FailureReleases | internal/server/api/idempotency.go:112-124 | after a failure or panic the in-flight row is gone, a completed row and every other key are untouched |
| Answers.FreeKeyReserved | internal/server/api/idempotency.go:85-108 | a key can be reserved exactly when it has no row, and then belongs to the request that reserved it |
| Answers.SuccessRecorded | internal/server/api/idempotency.go:242-258 | a success still in flight is recorded with its status and, if cacheable, its sealed body |
| Answers.SweepsOnlyOld | internal/server/tunnels/lifecycle.go:317-341 | keys are swept only past their retention, credentials only past theirs since revocation or expiry |
| Progress.RunLocks | internal/server/tunnels/handlers.go:145-257 | in every run each row, key and quota lock belongs to an undecided transaction that has a use for it |
| Progress.NeverStuck | internal/server/api/idempotency.go:67-134 | every process has finished, can take its next step, waits for a lock, lost its transaction, or presented an unknown credential |
| Progress.NoDeadlock | internal/server/tunnels/handlers.go:145-257 | whoever waits waits for a process that can move, or for one that waits for one that can |
| Fingerprints.RunMatched | internal/server/api/idempotency.go:85-134 | while no request outlives retention each reservation stays its own request's, and every row, response and owed replay carries the fingerprint of the request that committed it |
| Fingerprints.ReplayForSameFingerprint | internal/server/api/idempotency.go:177-225 | then every later request with the same key and fingerprint replays the committed bytes |
| Fingerprints.RepliesAnswerTheirRequest | internal/server/api/idempotency.go:202-224 | and a 201 is only ever the answer to a request that committed with the same fingerprint |
| Retention.OldRequestMismatch | internal/server/tunnels/lifecycle.go:317-321 | a concrete run in which a request older than the window completes another request's row |
| Retention.RetentionIsTheLimit | internal/server/tunnels/lifecycle.go:317-321 | completed rows answer their own fingerprint in every run if and only if no request may outlive the retention window |
| RetryClient.RetryDelay | internal/cli/client.go:327-339 | pauses exactly the backoff without a usable Retry-After, and with one exactly that long up to five seconds |
| RetryClient.HttpClient.DoCtx | internal/cli/client.go:273-308 | which answer is handed back after how many requests, read off the answers alone: network failures, 502, 503, 504 and, with a key, 409 with Retry-After are passed over up to the third; anything else ends it |
| RetryClient.HttpClient.CreateTunnelCtx | internal/cli/client.go:91-128 | the nested loops make exactly the automaton's exchanges, and where a keyed call ends, with what, after how many requests is read off the answers and cuts alone, the replay after an undecodable 201 included |
| RetryClient.RetriesReachTunnel | internal/cli/client.go:273-325 | up to two passing answers in a row never keep a keyed call from the decodable 201 after them, in its first series or in the replay |
| RetryClient.KeyedEndsOnce | internal/cli/client.go:108-127 | the answers and cuts determine result and number of requests of a keyed call |
| RetryClient.RequestsBounded | internal/cli/client.go:108-127 | at most six requests with a key, exactly one without, and the whole call within 200.1 seconds at the request timeout |
| RetryClient.ReturnsFirstDecoded | internal/cli/client.go:113-120 | a returned tunnel is the first 201 that could be decoded, and nothing is sent after it |
| EndToEnd.OneCommitPerKey | internal/server/api/idempotency.go:85-134 | within retention of its first use a key is behind at most one commit, whoever sends it |
| EndToEnd.KeyedCreateOnce | internal/cli/client.go:101-128 | over a lossy network a keyed call sends at most six requests, within retention they commit at most one tunnel, and a tunnel it returns is that one |
| EndToEnd.UnkeyedCreateOnce | internal/cli/client.go:273-298 | an unkeyed call sends exactly one request, which commits at most one tunnel, and a tunnel it returns is that request's own |
| EndToEnd.ConflictDecidesCall | internal/cli/client.go:310-325 | a call told its key is in flight or just freed goes on to another request unless that was its third attempt or it is cut; one told the key is another request's stops |
| EndToEnd.CanSend | internal/cli/client.go:281-296 | and a call about to send can send |
| EndToEnd.ReturnedCredentialIssued | internal/cli/client.go:113-120 | whatever a call returns, first answer or replay, names an existing tunnel and carries the secret of a credential issued for it |
| RateLimiter.TokenBuckets.CleanupStale | internal/server/api/ratelimit.go:65-76 | once 300 seconds have passed since the last time removes exactly the buckets idle for longer than that, before it nothing |
| RateLimiter.TokenBuckets.Allow | internal/server/api/ratelimit.go:38-63 | admits iff tokens plus elapsed·rate/60, capped, reach one, and leaves that bucket; the state and answers are those of the history |
| RateLimiter.TokensInRange | internal/server/api/ratelimit.go:49-62 | every bucket holds between zero and the capacity after any history |
| RateLimiter.CollectionInvisible | internal/server/api/ratelimit.go:42-76 | every call of every history gets the answer of a limiter that never collects |
| RateLimiter.WindowBound | internal/server/api/ratelimit.go:49-62 | at most capacity + rate·d/60 calls of one key are admitted within any d seconds, in just these terms |
| RateLimiter.SpacedNeverRefused | internal/server/api/ratelimit.go:49-62 | a key that calls no faster than once per 60/rate seconds is never refused |
| Pagination.IdOrder | internal/server/tunnels/handlers.go:324-337 | IDs are ordered by their first difference, a proper prefix first |
| Pagination.PageShape | internal/server/tunnels/handlers.go:324-373 | a page descends strictly below its cursor, holds at most the limit, and leaves out only rows below its next cursor |
| Pagination.ListTunnels | internal/server/tunnels/handlers.go:304-382 | refuses exactly a limit that is malformed or outside 1-100 and a cursor that is malformed, unnamed or timeless; otherwise the page at the given limit, or 50 |
| Pagination.ListTunnelsCtx | internal/cli/client.go:152-190 | following cursors while rows are inserted ends, never meets a repeated cursor, is refused exactly for a limit above 100, and returns newest first, without duplicates, every row visible at the first page |
| Pagination.FixedTable | internal/cli/client.go:152-190 | over an unchanging table the result is the whole table in order |
| TokenScan.FormatsToldApart | internal/tokens/tokens.go:125-157 | stored digests of today's format are told from PHC strings and bare hex |
| TokenScan.ChoiceIsUnique | internal/server/api/auth.go:78-105 | candidates and verdicts determine the choice |
| TokenScan.AuthenticateRequest | internal/server/api/auth.go:78-105 | chooses the first current match, else the first legacy match before a failure; records the principal exactly on success; runs no legacy check if a current digest matches |
| TokenScan.LookupRuntimeToken | internal/server/plugin/handler.go:386-423 | the same choice over the plugin's rows |
| TokenScan.ServersAgree | internal/server/plugin/handler.go:408-423 | on the same hashes and verdicts both servers choose the same position, fail together and find nothing together |
| TokenScan.FailureMeansNoCurrent | internal/server/api/auth.go:83-91 | a verification error is never reported when a current digest matches |
| LegacySlots.SlotsConserved | internal/tokens/tokens.go:191-213 | occupied slots are those of unfinished workers, never more than two; each worker frees its slot once; a caller's verdict is its own worker's; a caller told busy started none |
| LegacySlots.OnlyWorkerReleases | internal/tokens/tokens.go:197-206 | a slot is freed by its own worker's release and nothing else, a caller's early return included; the release never blocks |
| LegacySlots.CallersCanReturn | internal/tokens/tokens.go:191-213 | a caller can always give up, keeping every slot as it is, report busy while it has none, and take its worker's verdict once there is one |
| LegacySlots.NoLeak | internal/tokens/tokens.go:195-212 | a waiting caller can take a slot exactly when fewer than two workers are unfinished |
| TunnelHost.GenerateTunnelID | internal/server/tunnels/id.go:14-28 | fails exactly when entropy fails, and otherwise issues `t-` and the drawn letters of the alphabet |
| TunnelHost.PublicHostValid | internal/config/config.go:195-214 | every issued host under a validated domain is a valid hostname of at most 253 bytes (section 2.3.4 of RFC 1035) |
| TunnelHost.HostRoundTrip | internal/server/plugin/authorize.go:95-149 | every spelling of an issued host, in any letter case, with or without trailing dot and port, is taken back to its ID |
| TunnelHost.PortRoundTrip | internal/server/plugin/authorize.go:131-142 | a port written in decimal is accepted exactly from 1 to 65535, and the host is then taken back to its ID |
| TunnelHost.AcceptedIsPublicHost | internal/server/plugin/authorize.go:95-149 | conversely an accepted ASCII host is, case, dot, port and brackets aside, exactly ID.domain, the ID one label of 3 to 63 lower-case letters, digits and inner hyphens after `t-`, the port from 1 to 65535 |
| ReplayCache.ResponseRecorder.WriteHeader | internal/server/api/idempotency.go:323-329 | the first status wins |
| ReplayCache.ResponseRecorder.Write | internal/server/api/idempotency.go:331-344 | the buffer is the whole concatenation so far or, past 4096 bytes, nothing |
| ReplayCache.CaptureResponse | internal/server/api/idempotency.go:303-310 | for any sequence of writes the captured body is exact or dropped, never a proper prefix, and the client is sent all of it |
| ReplayCache.PersistCompletion | internal/server/api/idempotency.go:227-261 | which row each captured response leaves |
| ReplayCache.AssociatedDataInjective | internal/server/api/idempotency.go:411-413 | the associated data determines token, key and status, NULs in the key included |
| ReplayCache.HashedRequestInjective | internal/server/api/idempotency.go:284-292 | the hashed bytes determine method, path, query and body |
| ReplayCache.SealOpens | internal/server/api/idempotency.go:379-409 | a sealed response opens to its bytes under its own token, key and status and under no other |
| ReplayCache.LegacyRowReplays | internal/server/api/idempotency.go:391-397 | a row stored before encryption is replayed as it is |
| ReplayCache.FaithfulReplay | internal/server/api/idempotency.go:202-261 | captured, persisted and served: exact bytes and status up to 4096 bytes, unavailable above, nothing kept of an error |

## Left out

- Row locks on credential rows: updates of `tunnel_runtime_tokens` take effect with their transaction's commit, under the tunnel's row lock; the lock on each credential row itself is not modelled.
- The reaper's UPDATE takes rows one by one and may stop before it has taken every one, and the sweepers run row by row, which allows more interleavings than one statement does; that a bulk UPDATE waits for locked rows while holding others, and that PostgreSQL breaks a deadlock of two such updates, is not modelled; the age of an event plays no part, since the event sweep touches only a table nothing reads back.
- Checks before the reservation (authentication, rate limit, key length, oversized body) and request validation other than the TTL are error answers of the step `Fail`, or, before the middleware, of the network in `EndToEnd`.
- Login callbacks and new-connection callbacks: the first is the credential lookup alone, the second the request gate alone; usage counters and connection events decide nothing.
- Values: JSON, base64, Argon2 and random generation are inverse pairs or inputs; the 201 document is its tunnel ID, expiry and one-time secret.
- A panic is a step of the request; a panic inside a legacy verification worker would end the process and is not modelled.
- RetryClient.RequestsBounded: counts calls of `HTTPClient.Do`; Go's HTTP transport may itself resend a request that carries an Idempotency-Key on a fresh connection, which the server cannot tell from a retry and the end-to-end theorem's "whoever sends it" covers for commits but not for the count.
- EndToEnd.KeyedCreateOnce: speaks of runs within the retention window of the key's first use; beyond it a request delayed for longer than the window may commit again, as the separation by a sweep in `Guarantees.AtMostOnce` says.
- RateLimiter.TokenBuckets.Allow: `float64` is `real`, so rounding is not modelled; the mutex makes calls atomic and is not modelled further.
- Pagination.ListTunnelsCtx: ID order is by character code; a database collation that orders the ASCII IDs differently is another total order and is not covered literally.
- TunnelHost.AcceptedIsPublicHost: ASCII hosts only; Unicode case folding and Unicode spaces are not modelled.
- ReplayCache.SealOpens: the AEAD is ideal and the nonce given; nonce reuse and forgery probabilities are not modelled.
- HTTP serving, routing, shutdown, logging, metrics, configuration loading, migrations, the frps process wrapper, Caddy and frpc configuration and the CLI's commands.
