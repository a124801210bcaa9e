// The control plane as a transition system over its database. A step is one SQL statement, one
// commit decision, one failure or one tick of the clock; handlers are the program counters that
// order their statements. READ COMMITTED is encoded as: effects stay private to a transaction until
// its commit, a statement that needs a locked row is not enabled (it waits) and re-reads committed
// data when it runs, and every lock a transaction holds goes when its commit or abort is decided.

module ControlPlane {
  import opened Prelude
  import opened Schema
  import opened Lifecycle

  /** Identifies one request, callback or reaper run; it doubles as the fresh UUID of the token row. */
  type Pid = nat

  /** Settings fixed over a run. `lockOf` is the advisory-lock hash of a user ID: any function. */
  datatype Config = Config(
    maxConcurrent: nat, maxTtlSeconds: nat, keyRetention: nat, tokenRetention: nat,
    lockOf: UserId -> int)

  /** hashtextextended(user, 0) */
  function LockOf(cfg: Config, u: UserId): int {
    cfg.lockOf(u)
  }

  /** Bounds that configuration validation guarantees. */
  ghost predicate Validated(cfg: Config) {
    && cfg.maxConcurrent > 0 && cfg.maxTtlSeconds > 0
    && cfg.keyRetention >= HOUR && cfg.tokenRetention >= DAY
  }

  datatype Job =
    | CreateJob(user: UserId, ttlSeconds: int, secret: string)
    | RevokeJob(tunnel: TunnelId, owner: Option<UserId>)
    | NewProxyJob(secret: string, proxyName: TunnelId, subdomain: TunnelId)
    | CloseProxyJob(proxyName: TunnelId)
    | ReapJob

  predicate FromApi(j: Job) {
    j.CreateJob? || j.RevokeJob?
  }

  /** The 201 document carries the one-time runtime token. */
  datatype Body = TunnelBody(tunnel: TunnelId, expiresAt: nat, secret: string) | OtherBody

  datatype Reply = Reply(status: int, retryAfter: bool, body: Body)

  predicate Success(status: int) {
    200 <= status < 300
  }

  /** An authenticated encryption of a body under its key and status. */
  datatype Sealed = Sealed(key: IdemKey, status: int, plain: Body)

  function OpenSealed(k: IdemKey, status: int, c: Sealed): Option<Body> {
    if c.key == k && c.status == status then Some(c.plain) else None
  }

  /** Completed columns; `body` is NULL for a response that could not be cached. */
  datatype Stored = Stored(status: int, body: Option<Sealed>)

  /** `reservedBy` is a history variable naming the request whose INSERT made the row. */
  datatype IdemRow = IdemRow(hash: Fingerprint, createdAt: nat, reservedBy: Pid, result: Option<Stored>)

  /** Evidence behind an activation: token row, callback, and the clock read under the row lock. */
  datatype Grant = Grant(token: nat, callback: Pid, at: nat)

  /** What a transaction has done so far; only statements already executed take part in its commit. */
  datatype Effect =
    | Idle
    | Creating(id: TunnelId, row: Tunnel, token: Option<RuntimeToken>, announced: bool, complete: Option<Stored>)
    | Moving(t: TunnelId, e: Event, to: Option<Status>, logged: bool, grant: Option<Grant>, revoked: bool)
    | Reaping(rows: set<TunnelId>, done: set<TunnelId>)

  datatype Phase = Outside | Open | Committing | Committed | Aborted

  datatype Tx = Tx(phase: Phase, begun: nat, effect: Effect)

  predicate Live(tx: Tx) {
    tx.phase.Open? || tx.phase.Committing?
  }

  datatype Pc =
    | Arrived
    | Existing                                        // the reservation INSERT hit a row
    | Handling                                        // in the domain handler, no transaction yet
    | QuotaLock
    | Counting
    | Inserting(count: nat, attempt: nat)
    | LockingRow(t: TunnelId, e: Event, via: Option<nat>)
    | RowLocked(read: Status, checkedAt: Option<nat>, via: Option<nat>)
    | InTx
    | AwaitingCommit(onAck: Reply)
    | Responded(reply: Reply)                         // response written, bookkeeping outstanding
    | Panicked
    | Gone(sent: Option<Reply>)

  datatype Proc = Proc(
    job: Job, key: Option<IdemKey>, hash: Fingerprint,
    pc: Pc, tx: Tx, holds: bool, reservedAt: nat)

  datatype Obs =
    | TunnelCommitted(pid: Pid, key: Option<IdemKey>, hash: Fingerprint, body: Body)
    | ReplySwept(swept: IdemKey, createdAt: nat, at: nat)

  /** `issued`, `log`, `grants` and `trace` are history variables; `issued` is `tokens` never swept. */
  datatype State = State(
    now: nat,
    tunnels: map<TunnelId, Tunnel>,
    tokens: map<nat, RuntimeToken>,
    keys: map<IdemKey, IdemRow>,
    rowLocks: map<TunnelId, Pid>,
    keyLocks: map<IdemKey, Pid>,
    advisory: map<int, Pid>,
    procs: map<Pid, Proc>,
    issued: map<nat, RuntimeToken>,
    log: map<TunnelId, seq<Event>>,
    grants: map<TunnelId, Grant>,
    trace: seq<Obs>)

  const INITIAL := State(0, map[], map[], map[], map[], map[], map[], map[], map[], map[], map[], [])

  /** Where a statement can find or miss its row the two outcomes are two steps. */
  datatype Step =
    | Tick(elapsed: nat)
    | Arrive(p: Pid, job: Job, key: Option<IdemKey>, hash: Fingerprint)
    | Start(p: Pid)
    | Reserve(p: Pid, ack: bool)
    | ReserveHits(p: Pid)
    | ServeExisting(p: Pid)
    | BeginCreate(p: Pid)
    | TakeQuotaLock(p: Pid)
    | CountTunnels(p: Pid)
    | InsertTunnel(p: Pid, id: TunnelId)
    | InsertConflicts(p: Pid, id: TunnelId)
    | StoreToken(p: Pid)
    | LogEvent(p: Pid)
    | CompleteKey(p: Pid)
    | CompleteMisses(p: Pid)
    | BeginRevoke(p: Pid)
    | LookupToken(p: Pid, r: nat)
    | ReadStatus(p: Pid)
    | LockRow(p: Pid)
    | LockMisses(p: Pid)
    | CheckClock(p: Pid)
    | UpdateStatus(p: Pid)
    | RevokeTokens(p: Pid)
    | BeginReap(p: Pid)
    | ReapRow(p: Pid, t: TunnelId)
    | LogExpiry(p: Pid, t: TunnelId)
    | SendCommit(p: Pid)
    | CommitTx(p: Pid)
    | AbortTx(p: Pid)
    | AckCommit(p: Pid)
    | Fail(p: Pid, status: int)
    | Panic(p: Pid)
    | Leave(p: Pid)
    | Persist(p: Pid, cacheable: bool)
    | ReleaseAfterPanic(p: Pid)
    | SweepKey(k: IdemKey)
    | SweepToken(r: nat)

  // ----- helpers -----

  function Put(s: State, p: Pid, pr: Proc): State {
    s.(procs := s.procs[p := pr])
  }

  function At(pr: Proc, pc: Pc): Proc {
    pr.(pc := pc)
  }

  function Doing(pr: Proc, e: Effect): Proc {
    pr.(tx := pr.tx.(effect := e))
  }

  function Begun(pr: Proc, now: nat, e: Effect): Proc {
    pr.(tx := Tx(Open, now, e))
  }

  /** Leaves the handler with an error status; callbacks and the reaper just end. */
  function Refuse(pr: Proc, status: int): Proc {
    At(pr, if FromApi(pr.job) then Responded(Reply(status, false, OtherBody)) else Gone(None))
  }

  /** The response already written for a process, if any. */
  function Visible(pc: Pc): Option<Reply> {
    match pc
    case Responded(r) => Some(r)
    case Gone(sent) => sent
    case _ => None
  }

  predicate Working(s: State, p: Pid) {
    p in s.procs && s.procs[p].tx.phase.Open?
  }

  predicate AtHandler(s: State, p: Pid) {
    p in s.procs && s.procs[p].pc.Handling? && s.procs[p].tx.phase.Outside?
  }

  predicate InHandler(pc: Pc) {
    !pc.Responded? && !pc.Panicked? && !pc.Gone?
  }

  /** TTL in seconds after defaulting, or None where the handler answers 400. */
  function ResolveTtl(cfg: Config, ttl: int): Option<nat> {
    if ttl < 0 then None
    else
      var chosen := if ttl != 0 then ttl else if cfg.maxTtlSeconds < 3600 then cfg.maxTtlSeconds else 3600;
      if chosen > cfg.maxTtlSeconds then None else Some(chosen)
  }

  function BodyOf(id: TunnelId, row: Tunnel, job: Job): Body
    requires job.CreateJob?
  {
    TunnelBody(id, row.expiresAt, job.secret)
  }

  /** Rows a credential lookup would return: the plugin's join filter and digest comparison. */
  predicate Accepted(s: State, r: nat, secret: string) {
    && r in s.tokens
    && TokenAlive(s.tokens[r], s.now)
    && s.tokens[r].digest == Sha256(secret)
    && s.tokens[r].tunnel in s.tunnels
    && s.tunnels[s.tokens[r].tunnel].expiresAt > s.now
    && NonTerminal(s.tunnels[s.tokens[r].tunnel].status)
  }

  /** The request gate: traffic is let through to tunnel t. */
  predicate Admits(s: State, t: TunnelId) {
    && t in s.tunnels
    && (s.tunnels[t].status.Active? || s.tunnels[t].status.Closed?)
    && s.tunnels[t].expiresAt > s.now
  }

  function Kept<K>(locks: map<K, Pid>, p: Pid): map<K, Pid> {
    map k | k in locks && locks[k] != p :: locks[k]
  }

  function Unlocked(s: State, p: Pid): State {
    s.(rowLocks := Kept(s.rowLocks, p), keyLocks := Kept(s.keyLocks, p), advisory := Kept(s.advisory, p))
  }

  // Each step below is a guard, the condition under which its statement runs, and the process entry
  // it leaves behind. Guards that mention a lock are where a statement waits.

  // ----- request entry and the idempotency middleware -----

  function Arriving(job: Job, key: Option<IdemKey>, hash: Fingerprint): Proc {
    Proc(job, key, hash, Arrived, Tx(Outside, 0, Idle), false, 0)
  }

  predicate CanReserve(s: State, p: Pid) {
    p in s.procs && s.procs[p].pc.Arrived? && s.procs[p].key.Some? && s.procs[p].key.value !in s.keys
  }

  function WithReservation(s: State, p: Pid): map<IdemKey, IdemRow>
    requires p in s.procs && s.procs[p].key.Some?
  {
    s.keys[s.procs[p].key.value := IdemRow(s.procs[p].hash, s.now, p, None)]
  }

  /** INSERT … ON CONFLICT DO NOTHING made the row; without `ack` the server saw an error instead. */
  function Reserving(s: State, pr: Proc, ack: bool): Proc {
    if ack then At(pr, Handling).(holds := true, reservedAt := s.now) else Refuse(pr, 500)
  }

  predicate CanHitReservation(s: State, p: Pid) {
    p in s.procs && s.procs[p].pc.Arrived? && s.procs[p].key.Some? && s.procs[p].key.value in s.keys
  }

  predicate CanServeExisting(s: State, p: Pid) {
    p in s.procs && s.procs[p].pc.Existing? && s.procs[p].key.Some?
  }

  function ExistingReply(k: IdemKey, hash: Fingerprint, row: IdemRow): Reply {
    if row.hash != hash then Reply(409, false, OtherBody)
    else if row.result.None? then Reply(409, true, OtherBody)
    else if row.result.value.body.None? then Reply(500, false, OtherBody)
    else
      match OpenSealed(k, row.result.value.status, row.result.value.body.value)
      case None => Reply(500, false, OtherBody)
      case Some(b) => Reply(row.result.value.status, false, b)
  }

  function ServingExisting(s: State, pr: Proc): Proc
    requires pr.key.Some?
  {
    var k := pr.key.value;
    At(pr, Responded(if k !in s.keys then Reply(409, true, OtherBody) else ExistingReply(k, pr.hash, s.keys[k])))
  }

  /** DELETE … WHERE completed_at IS NULL. */
  function Released(keys: map<IdemKey, IdemRow>, k: IdemKey): map<IdemKey, IdemRow> {
    if k in keys && keys[k].result.None? then keys - {k} else keys
  }

  /** UPDATE … SET response … WHERE completed_at IS NULL; an uncacheable body is stored as NULL. */
  function Recorded(keys: map<IdemKey, IdemRow>, k: IdemKey, r: Reply, cacheable: bool): map<IdemKey, IdemRow> {
    if k in keys && keys[k].result.None? then
      var body := if cacheable then Some(Sealed(k, r.status, r.body)) else None;
      keys[k := keys[k].(result := Some(Stored(r.status, body)))]
    else keys
  }

  /** Bookkeeping after the handler returned, on a connection of its own; a locked row makes it wait. */
  predicate CanPersist(s: State, p: Pid) {
    && p in s.procs && s.procs[p].pc.Responded? && s.procs[p].holds && s.procs[p].key.Some?
    && s.procs[p].key.value !in s.keyLocks
  }

  function Persisted(s: State, pr: Proc, cacheable: bool): map<IdemKey, IdemRow>
    requires pr.pc.Responded? && pr.key.Some?
  {
    if Success(pr.pc.reply.status) then Recorded(s.keys, pr.key.value, pr.pc.reply, cacheable)
    else Released(s.keys, pr.key.value)
  }

  predicate CanReleaseAfterPanic(s: State, p: Pid) {
    && p in s.procs && s.procs[p].pc.Panicked? && s.procs[p].holds && s.procs[p].key.Some?
    && s.procs[p].key.value !in s.keyLocks
  }

  // ----- tunnel creation -----

  predicate CanBeginCreate(s: State, p: Pid) {
    AtHandler(s, p) && s.procs[p].job.CreateJob?
  }

  function BeginningCreate(cfg: Config, s: State, pr: Proc): Proc
    requires pr.job.CreateJob?
  {
    if ResolveTtl(cfg, pr.job.ttlSeconds).None? then Refuse(pr, 400) else At(Begun(pr, s.now, Idle), QuotaLock)
  }

  predicate CanTakeQuotaLock(cfg: Config, s: State, p: Pid) {
    && Working(s, p) && s.procs[p].pc.QuotaLock? && s.procs[p].job.CreateJob?
    && LockOf(cfg, s.procs[p].job.user) !in s.advisory
  }

  predicate CanCountTunnels(s: State, p: Pid) {
    Working(s, p) && s.procs[p].pc.Counting? && s.procs[p].job.CreateJob?
  }

  function CountingTunnels(cfg: Config, s: State, pr: Proc): Proc
    requires pr.job.CreateJob?
  {
    var count := Usage(s.tunnels, pr.job.user);
    if count >= cfg.maxConcurrent then Refuse(pr, 403) else At(pr, Inserting(count, 0))
  }

  predicate ReadyToInsert(cfg: Config, s: State, p: Pid) {
    && Working(s, p) && s.procs[p].pc.Inserting? && s.procs[p].job.CreateJob?
    && ResolveTtl(cfg, s.procs[p].job.ttlSeconds).Some?
  }

  /** INSERT … ON CONFLICT (id) DO NOTHING; an uncommitted row of the same ID makes it wait. */
  predicate CanInsertTunnel(cfg: Config, s: State, p: Pid, id: TunnelId) {
    ReadyToInsert(cfg, s, p) && id !in s.tunnels && id !in s.rowLocks
  }

  function InsertingTunnel(cfg: Config, s: State, pr: Proc, id: TunnelId): Proc
    requires pr.job.CreateJob? && ResolveTtl(cfg, pr.job.ttlSeconds).Some?
  {
    var ttl := ResolveTtl(cfg, pr.job.ttlSeconds).value;
    var row := Tunnel(pr.job.user, Reserved, pr.tx.begun, s.now, s.now + ttl * SECOND);
    At(Doing(pr, Creating(id, row, None, false, None)), InTx)
  }

  predicate CanConflict(cfg: Config, s: State, p: Pid, id: TunnelId) {
    ReadyToInsert(cfg, s, p) && id in s.tunnels
  }

  /** A taken ID is tried again twice. */
  function TryingAgain(pr: Proc): Proc
    requires pr.pc.Inserting?
  {
    if pr.pc.attempt + 1 >= 3 then Refuse(pr, 500) else At(pr, Inserting(pr.pc.count, pr.pc.attempt + 1))
  }

  predicate CanStoreToken(s: State, p: Pid) {
    && Working(s, p) && s.procs[p].pc.InTx? && s.procs[p].job.CreateJob?
    && s.procs[p].tx.effect.Creating? && s.procs[p].tx.effect.token.None?
  }

  function StoringToken(pr: Proc): Proc
    requires pr.job.CreateJob? && pr.tx.effect.Creating?
  {
    var e := pr.tx.effect;
    Doing(pr, e.(token := Some(RuntimeToken(e.id, Sha256(pr.job.secret), e.row.expiresAt, None))))
  }

  /** INSERT INTO tunnel_events, for creations and single transitions alike. */
  predicate CanLogEvent(s: State, p: Pid) {
    && Working(s, p) && s.procs[p].pc.InTx?
    && var e := s.procs[p].tx.effect;
    (e.Creating? && e.token.Some? && !e.announced) || (e.Moving? && e.to.Some? && !e.logged)
  }

  function LoggingEvent(pr: Proc): Proc {
    match pr.tx.effect
    case Creating(_, _, _, _, _) => Doing(pr, pr.tx.effect.(announced := true))
    case Moving(_, _, _, _, _, _) => Doing(pr, pr.tx.effect.(logged := true))
    case _ => pr
  }

  /** Completion of the reservation inside the creating transaction. */
  predicate ReadyToComplete(s: State, p: Pid) {
    && Working(s, p) && s.procs[p].pc.InTx? && s.procs[p].holds && s.procs[p].key.Some? && s.procs[p].job.CreateJob?
    && s.procs[p].tx.effect.Creating? && s.procs[p].tx.effect.announced && s.procs[p].tx.effect.complete.None?
  }

  predicate InFlight(s: State, k: IdemKey) {
    k in s.keys && s.keys[k].result.None?
  }

  predicate CanCompleteKey(s: State, p: Pid) {
    ReadyToComplete(s, p) && InFlight(s, s.procs[p].key.value) && s.procs[p].key.value !in s.keyLocks
  }

  function CompletingKey(pr: Proc): Proc
    requires pr.job.CreateJob? && pr.tx.effect.Creating? && pr.key.Some?
  {
    var e, k := pr.tx.effect, pr.key.value;
    Doing(pr, e.(complete := Some(Stored(201, Some(Sealed(k, 201, BodyOf(e.id, e.row, pr.job)))))))
  }

  /** Zero rows affected: the active reservation disappeared. */
  predicate CanMissCompletion(s: State, p: Pid) {
    ReadyToComplete(s, p) && !InFlight(s, s.procs[p].key.value) && s.procs[p].key.value !in s.keyLocks
  }

  // ----- revocation and plugin callbacks -----

  predicate CanBeginRevoke(s: State, p: Pid) {
    AtHandler(s, p) && s.procs[p].job.RevokeJob?
  }

  function BeginningRevoke(s: State, pr: Proc): Proc
    requires pr.job.RevokeJob?
  {
    At(Begun(pr, s.now, Idle), LockingRow(pr.job.tunnel, Revoke, None))
  }

  /** NewProxy: find the credential, then compare proxy name and subdomain with its tunnel. */
  predicate CanLookupToken(s: State, p: Pid, r: nat) {
    AtHandler(s, p) && s.procs[p].job.NewProxyJob? && Accepted(s, r, s.procs[p].job.secret)
  }

  function LookingUpToken(s: State, pr: Proc, r: nat): Proc
    requires r in s.tokens && pr.job.NewProxyJob?
  {
    var t := s.tokens[r].tunnel;
    if pr.job.proxyName != t || pr.job.subdomain != t then Refuse(pr, 200)
    else At(Begun(pr, s.now, Idle), LockingRow(t, NewProxy, Some(r)))
  }

  /** CloseProxy: the unlocked read that decides whether to attempt the transition. */
  predicate CanReadStatus(s: State, p: Pid) {
    AtHandler(s, p) && s.procs[p].job.CloseProxyJob?
  }

  function ReadingStatus(s: State, pr: Proc): Proc
    requires pr.job.CloseProxyJob?
  {
    var t := pr.job.proxyName;
    if t !in s.tunnels || !s.tunnels[t].status.Active? then Refuse(pr, 200)
    else At(Begun(pr, s.now, Idle), LockingRow(t, CloseProxy, None))
  }

  /** SELECT status … FOR UPDATE, with the ownership filter of an owner's revoke. */
  predicate Selects(s: State, pr: Proc)
    requires pr.pc.LockingRow?
  {
    && pr.pc.t in s.tunnels
    && (pr.job.RevokeJob? && pr.job.owner.Some? ==> s.tunnels[pr.pc.t].user == pr.job.owner.value)
  }

  predicate CanLockRow(s: State, p: Pid) {
    Working(s, p) && s.procs[p].pc.LockingRow? && Selects(s, s.procs[p]) && s.procs[p].pc.t !in s.rowLocks
  }

  function TakingRow(s: State, pr: Proc): Proc
    requires pr.pc.LockingRow? && pr.pc.t in s.tunnels
  {
    At(Doing(pr, Moving(pr.pc.t, pr.pc.e, None, false, None, false)),
       RowLocked(s.tunnels[pr.pc.t].status, None, pr.pc.via))
  }

  predicate CanMissRow(s: State, p: Pid) {
    Working(s, p) && s.procs[p].pc.LockingRow? && !Selects(s, s.procs[p])
  }

  predicate AtLockedRow(s: State, p: Pid) {
    && Working(s, p) && s.procs[p].pc.RowLocked? && s.procs[p].tx.effect.Moving?
    && s.procs[p].tx.effect.t in s.tunnels
  }

  /** NewProxy only: the wall clock is read in a second statement, while the row lock is held. */
  predicate CanCheckClock(s: State, p: Pid) {
    AtLockedRow(s, p) && s.procs[p].tx.effect.e.NewProxy? && s.procs[p].pc.checkedAt.None?
  }

  function CheckingClock(s: State, pr: Proc): Proc
    requires pr.pc.RowLocked? && pr.tx.effect.Moving? && pr.tx.effect.t in s.tunnels
  {
    if s.tunnels[pr.tx.effect.t].expiresAt <= s.now then Refuse(pr, 200)
    else if pr.pc.read.Active? then At(pr, InTx)
    else At(pr, pr.pc.(checkedAt := Some(s.now)))
  }

  /** The table lookup and the UPDATE; NewProxy reaches it only past the clock check. */
  predicate CanUpdateStatus(s: State, p: Pid) {
    && AtLockedRow(s, p)
    && (s.procs[p].tx.effect.e.NewProxy? ==> s.procs[p].pc.checkedAt.Some? && s.procs[p].pc.via.Some?)
  }

  function UpdatingStatus(s: State, p: Pid, pr: Proc): Proc
    requires pr.pc.RowLocked? && pr.tx.effect.Moving? && pr.tx.effect.t in s.tunnels
    requires pr.tx.effect.e.NewProxy? ==> pr.pc.checkedAt.Some? && pr.pc.via.Some?
  {
    var m := pr.tx.effect;
    if m.e.Revoke? && !NonTerminal(pr.pc.read) then At(pr, InTx)
    else if Edge(pr.pc.read, m.e).None? then Refuse(pr, 500)
    else if ChangedConcurrently(s, pr) then Refuse(pr, 500)
    else
      var grant := if m.e.NewProxy? then Some(Grant(pr.pc.via.value, p, pr.pc.checkedAt.value)) else None;
      At(Doing(pr, m.(to := Edge(pr.pc.read, m.e), grant := grant)), InTx)
  }

  /** UPDATE … WHERE status = $read affects no row. */
  predicate ChangedConcurrently(s: State, pr: Proc)
    requires pr.pc.RowLocked? && pr.tx.effect.Moving? && pr.tx.effect.t in s.tunnels
  {
    !pr.tx.effect.e.Revoke? && s.tunnels[pr.tx.effect.t].status != pr.pc.read
  }

  predicate CanRevokeTokens(s: State, p: Pid) {
    && Working(s, p) && s.procs[p].pc.InTx? && s.procs[p].tx.effect.Moving? && s.procs[p].tx.effect.e.Revoke?
    && (s.procs[p].tx.effect.to.None? || s.procs[p].tx.effect.logged)
  }

  function RevokingTokens(pr: Proc): Proc
    requires pr.tx.effect.Moving?
  {
    Doing(pr, pr.tx.effect.(revoked := true))
  }

  // ----- reaper -----

  predicate CanBeginReap(s: State, p: Pid) {
    AtHandler(s, p) && s.procs[p].job.ReapJob?
  }

  /** One row of the bulk UPDATE; its WHERE is evaluated again once the row is free. */
  predicate CanReapRow(s: State, p: Pid, t: TunnelId) {
    && Working(s, p) && s.procs[p].pc.InTx? && s.procs[p].tx.effect.Reaping? && s.procs[p].tx.effect.done == {}
    && t in s.tunnels && t !in s.rowLocks
    && NonTerminal(s.tunnels[t].status) && s.tunnels[t].expiresAt < s.procs[p].tx.begun
  }

  function ReapingRow(pr: Proc, t: TunnelId): Proc
    requires pr.tx.effect.Reaping?
  {
    Doing(pr, pr.tx.effect.(rows := pr.tx.effect.rows + {t}))
  }

  predicate CanLogExpiry(s: State, p: Pid, t: TunnelId) {
    && Working(s, p) && s.procs[p].pc.InTx? && s.procs[p].tx.effect.Reaping?
    && t in s.procs[p].tx.effect.rows && t !in s.procs[p].tx.effect.done
  }

  function LoggingExpiry(pr: Proc, t: TunnelId): Proc
    requires pr.tx.effect.Reaping?
  {
    Doing(pr, pr.tx.effect.(done := pr.tx.effect.done + {t}))
  }

  // ----- commit, abort and failure -----

  /** Every statement the handler issues before COMMIT has been executed. */
  predicate ReadyToCommit(pr: Proc) {
    match pr.tx.effect
    case Idle => false
    case Creating(_, _, token, announced, complete) =>
      token.Some? && announced && (pr.holds ==> complete.Some?) && pr.job.CreateJob?
    case Moving(_, e, to, logged, _, revoked) => (to.Some? ==> logged) && (e.Revoke? ==> revoked)
    case Reaping(rows, done) => rows == done
  }

  function AckReply(pr: Proc): Reply {
    if pr.tx.effect.Creating? && pr.job.CreateJob?
    then Reply(201, false, BodyOf(pr.tx.effect.id, pr.tx.effect.row, pr.job))
    else Reply(204, false, OtherBody)
  }

  predicate CanSendCommit(s: State, p: Pid) {
    Working(s, p) && s.procs[p].pc.InTx? && ReadyToCommit(s.procs[p])
  }

  function SendingCommit(pr: Proc): Proc {
    At(pr, AwaitingCommit(AckReply(pr))).(tx := pr.tx.(phase := Committing))
  }

  function InstalledTunnels(ts: map<TunnelId, Tunnel>, e: Effect): map<TunnelId, Tunnel> {
    match e
    case Idle => ts
    case Creating(id, row, _, _, _) => ts[id := row]
    case Moving(t, _, to, _, _, _) => if to.Some? && t in ts then ts[t := ts[t].(status := to.value)] else ts
    case Reaping(rows, _) => WithStatus(ts, rows, Expired)
  }

  function InstalledTokens(tokens: map<nat, RuntimeToken>, p: Pid, tx: Tx): map<nat, RuntimeToken> {
    match tx.effect
    case Creating(_, _, token, _, _) => if token.Some? then tokens[p := token.value] else tokens
    case Moving(t, _, _, _, _, revoked) => if revoked then WithTokensRevoked(tokens, t, tx.begun) else tokens
    case _ => tokens
  }

  function InstalledLog(log: map<TunnelId, seq<Event>>, e: Effect): map<TunnelId, seq<Event>> {
    match e
    case Idle => log
    case Creating(id, _, _, announced, _) => if announced then Logged(log, id, Created) else log
    case Moving(t, event, _, logged, _, _) => if logged then Logged(log, t, event) else log
    case Reaping(_, done) => WithEvents(log, done, Expire)
  }

  function InstalledKeys(keys: map<IdemKey, IdemRow>, pr: Proc): map<IdemKey, IdemRow> {
    if pr.tx.effect.Creating? && pr.tx.effect.complete.Some? && pr.key.Some? && pr.key.value in keys
    then keys[pr.key.value := keys[pr.key.value].(result := pr.tx.effect.complete)]
    else keys
  }

  function InstalledGrants(grants: map<TunnelId, Grant>, e: Effect): map<TunnelId, Grant> {
    if e.Moving? && e.grant.Some? then grants[e.t := e.grant.value] else grants
  }

  function InstalledTrace(trace: seq<Obs>, p: Pid, pr: Proc): seq<Obs> {
    if pr.tx.effect.Creating? then trace + [TunnelCommitted(p, pr.key, pr.hash, AckReply(pr).body)] else trace
  }

  function Installed(s: State, p: Pid, pr: Proc): State {
    s.(tunnels := InstalledTunnels(s.tunnels, pr.tx.effect),
       tokens := InstalledTokens(s.tokens, p, pr.tx),
       issued := InstalledTokens(s.issued, p, pr.tx),
       log := InstalledLog(s.log, pr.tx.effect),
       keys := InstalledKeys(s.keys, pr),
       grants := InstalledGrants(s.grants, pr.tx.effect),
       trace := InstalledTrace(s.trace, p, pr))
  }

  function Ended(pr: Proc, phase: Phase): Proc {
    pr.(tx := Tx(phase, pr.tx.begun, Idle))
  }

  predicate CanAckCommit(s: State, p: Pid) {
    p in s.procs && s.procs[p].pc.AwaitingCommit? && s.procs[p].tx.phase.Committed?
  }

  function AckingCommit(pr: Proc): Proc
    requires pr.pc.AwaitingCommit?
  {
    At(pr, if FromApi(pr.job) then Responded(pr.pc.onAck) else Gone(None))
  }

  /** The process crashes, gives up a bookkeeping write that timed out, or is simply done. */
  function Leaving(pr: Proc): Proc {
    At(pr, Gone(if pr.pc.Responded? then Some(pr.pc.reply) else if pr.pc.Gone? then pr.pc.sent else None))
  }

  // ----- sweepers, one row at a time -----

  predicate CanSweepKey(cfg: Config, s: State, k: IdemKey) {
    k in s.keys && k !in s.keyLocks && s.keys[k].createdAt + cfg.keyRetention < s.now
  }

  function SweptTrace(s: State, k: IdemKey): seq<Obs>
    requires k in s.keys
  {
    if s.keys[k].result.Some? then s.trace + [ReplySwept(k, s.keys[k].createdAt, s.now)] else s.trace
  }

  predicate Sweepable(cfg: Config, r: RuntimeToken, now: nat) {
    match r.revokedAt
    case Some(at) => at + cfg.tokenRetention < now
    case None => r.expiresAt + cfg.tokenRetention < now
  }

  // ----- runs -----

  /** One step of the system; a step whose statement has to wait or does not apply has no successor. */
  ghost predicate Next(cfg: Config, s: State, step: Step, s': State) {
    match step
    case Tick(elapsed) => s' == s.(now := s.now + elapsed)
    case Arrive(p, job, key, hash) =>
      && p !in s.procs && (key.Some? ==> FromApi(job))
      && s' == Put(s, p, Arriving(job, key, hash))
    case Start(p) =>
      // A request without a key, or a callback, goes straight to its handler.
      p in s.procs && s.procs[p].pc.Arrived? && s.procs[p].key.None? && s' == Put(s, p, At(s.procs[p], Handling))
    case Reserve(p, ack) =>
      && CanReserve(s, p)
      && s' == Put(s.(keys := WithReservation(s, p)), p, Reserving(s, s.procs[p], ack))
    case ReserveHits(p) => CanHitReservation(s, p) && s' == Put(s, p, At(s.procs[p], Existing))
    case ServeExisting(p) => CanServeExisting(s, p) && s' == Put(s, p, ServingExisting(s, s.procs[p]))
    case BeginCreate(p) => CanBeginCreate(s, p) && s' == Put(s, p, BeginningCreate(cfg, s, s.procs[p]))
    case TakeQuotaLock(p) =>
      && CanTakeQuotaLock(cfg, s, p)
      && s' == Put(s.(advisory := s.advisory[LockOf(cfg, s.procs[p].job.user) := p]), p, At(s.procs[p], Counting))
    case CountTunnels(p) => CanCountTunnels(s, p) && s' == Put(s, p, CountingTunnels(cfg, s, s.procs[p]))
    case InsertTunnel(p, id) =>
      && CanInsertTunnel(cfg, s, p, id)
      && s' == Put(s.(rowLocks := s.rowLocks[id := p]), p, InsertingTunnel(cfg, s, s.procs[p], id))
    case InsertConflicts(p, id) => CanConflict(cfg, s, p, id) && s' == Put(s, p, TryingAgain(s.procs[p]))
    case StoreToken(p) => CanStoreToken(s, p) && s' == Put(s, p, StoringToken(s.procs[p]))
    case LogEvent(p) => CanLogEvent(s, p) && s' == Put(s, p, LoggingEvent(s.procs[p]))
    case CompleteKey(p) =>
      && CanCompleteKey(s, p)
      && s' == Put(s.(keyLocks := s.keyLocks[s.procs[p].key.value := p]), p, CompletingKey(s.procs[p]))
    case CompleteMisses(p) => CanMissCompletion(s, p) && s' == Put(s, p, Refuse(s.procs[p], 500))
    case BeginRevoke(p) => CanBeginRevoke(s, p) && s' == Put(s, p, BeginningRevoke(s, s.procs[p]))
    case LookupToken(p, r) => CanLookupToken(s, p, r) && s' == Put(s, p, LookingUpToken(s, s.procs[p], r))
    case ReadStatus(p) => CanReadStatus(s, p) && s' == Put(s, p, ReadingStatus(s, s.procs[p]))
    case LockRow(p) =>
      CanLockRow(s, p) && s' == Put(s.(rowLocks := s.rowLocks[s.procs[p].pc.t := p]), p, TakingRow(s, s.procs[p]))
    case LockMisses(p) => CanMissRow(s, p) && s' == Put(s, p, Refuse(s.procs[p], 404))
    case CheckClock(p) => CanCheckClock(s, p) && s' == Put(s, p, CheckingClock(s, s.procs[p]))
    case UpdateStatus(p) => CanUpdateStatus(s, p) && s' == Put(s, p, UpdatingStatus(s, p, s.procs[p]))
    case RevokeTokens(p) => CanRevokeTokens(s, p) && s' == Put(s, p, RevokingTokens(s.procs[p]))
    case BeginReap(p) => CanBeginReap(s, p) && s' == Put(s, p, At(Begun(s.procs[p], s.now, Reaping({}, {})), InTx))
    case ReapRow(p, t) =>
      && CanReapRow(s, p, t)
      && s' == Put(s.(rowLocks := s.rowLocks[t := p]), p, ReapingRow(s.procs[p], t))
    case LogExpiry(p, t) => CanLogExpiry(s, p, t) && s' == Put(s, p, LoggingExpiry(s.procs[p], t))
    case SendCommit(p) => CanSendCommit(s, p) && s' == Put(s, p, SendingCommit(s.procs[p]))
    case CommitTx(p) =>
      // The database decides commit: effects become visible, then the locks go.
      && p in s.procs && s.procs[p].tx.phase.Committing?
      && s' == Put(Unlocked(Installed(s, p, s.procs[p]), p), p, Ended(s.procs[p], Committed))
    case AbortTx(p) =>
      // The database ends a transaction without it: rollback, lost connection, failed commit.
      p in s.procs && Live(s.procs[p].tx) && s' == Put(Unlocked(s, p), p, Ended(s.procs[p], Aborted))
    case AckCommit(p) => CanAckCommit(s, p) && s' == Put(s, p, AckingCommit(s.procs[p]))
    case Fail(p, status) =>
      // Any statement may fail, including a COMMIT whose outcome the server then does not learn.
      p in s.procs && InHandler(s.procs[p].pc) && !Success(status) && s' == Put(s, p, Refuse(s.procs[p], status))
    case Panic(p) => p in s.procs && InHandler(s.procs[p].pc) && s' == Put(s, p, At(s.procs[p], Panicked))
    case Leave(p) => p in s.procs && s' == Put(s, p, Leaving(s.procs[p]))
    case Persist(p, cacheable) =>
      && CanPersist(s, p)
      && s' == Put(s.(keys := Persisted(s, s.procs[p], cacheable)), p, Leaving(s.procs[p]))
    case ReleaseAfterPanic(p) =>
      && CanReleaseAfterPanic(s, p)
      && s' == Put(s.(keys := Released(s.keys, s.procs[p].key.value)), p, Leaving(s.procs[p]))
    case SweepKey(k) => CanSweepKey(cfg, s, k) && s' == s.(keys := s.keys - {k}, trace := SweptTrace(s, k))
    case SweepToken(r) => r in s.tokens && Sweepable(cfg, s.tokens[r], s.now) && s' == s.(tokens := s.tokens - {r})
  }

  ghost predicate Moves(cfg: Config, s: State, s': State) {
    exists step :: Next(cfg, s, step, s')
  }

  /** A run from the empty database. */
  ghost predicate Run(cfg: Config, run: seq<State>) {
    && |run| > 0 && run[0] == INITIAL
    && forall i :: 0 < i < |run| ==> StepAt(cfg, run, i)
  }

  ghost predicate StepAt(cfg: Config, run: seq<State>, i: int)
    requires 0 < i < |run|
  {
    Moves(cfg, run[i - 1], run[i])
  }
}
