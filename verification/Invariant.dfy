// The inductive invariant of the control plane: what each process may rely on while its
// transaction is live, and what the committed tables say about each other and about history.

module Invariant {
  import opened Prelude
  import opened Schema
  import opened Lifecycle
  import opened ControlPlane

  function LedgerOf(s: State): Ledger {
    Ledger(s.tunnels, s.issued, s.log)
  }

  function MaxTtl(cfg: Config): nat {
    cfg.maxTtlSeconds * SECOND
  }

  ghost predicate HoldsRow(s: State, p: Pid, t: TunnelId) {
    t in s.rowLocks && s.rowLocks[t] == p
  }

  ghost predicate HoldsKey(s: State, p: Pid, k: IdemKey) {
    k in s.keyLocks && s.keyLocks[k] == p
  }

  ghost predicate HoldsQuota(cfg: Config, s: State, p: Pid, u: UserId) {
    LockOf(cfg, u) in s.advisory && s.advisory[LockOf(cfg, u)] == p
  }

  // ----- one process -----

  /** Row r is tunnel t's own credential and callback p presented it under t's names. */
  ghost predicate Presented(s: State, p: Pid, t: TunnelId, r: nat) {
    && p in s.procs && s.procs[p].job.NewProxyJob?
    && s.procs[p].job.proxyName == t && s.procs[p].job.subdomain == t
    && r in s.issued && s.issued[r].tunnel == t && s.issued[r].digest == Sha256(s.procs[p].job.secret)
  }

  ghost predicate Granted(s: State, t: TunnelId, g: Grant) {
    && Presented(s, g.callback, t, g.token)
    && t in s.tunnels && g.at <= s.now && g.at < s.tunnels[t].expiresAt
  }

  ghost predicate CreatingInv(cfg: Config, s: State, p: Pid, pr: Proc)
    requires pr.tx.effect.Creating?
  {
    var e := pr.tx.effect;
    && pr.job.CreateJob? && e.row.user == pr.job.user
    && HoldsRow(s, p, e.id) && e.id !in s.tunnels
    && HoldsQuota(cfg, s, p, e.row.user) && Usage(s.tunnels, e.row.user) < cfg.maxConcurrent
    && e.row.status == Reserved && e.row.insertedAt <= s.now
    && e.row.insertedAt <= e.row.expiresAt <= e.row.insertedAt + MaxTtl(cfg)
    && (e.token.Some? ==> e.token.value == RuntimeToken(e.id, Sha256(pr.job.secret), e.row.expiresAt, None))
    && (e.complete.Some? ==> CompletingInv(s, p, pr))
  }

  /** Between its completing UPDATE and its commit a creation keeps its in-flight row to itself. */
  ghost predicate CompletingInv(s: State, p: Pid, pr: Proc)
    requires pr.tx.effect.Creating? && pr.job.CreateJob?
  {
    var e := pr.tx.effect;
    && pr.holds && pr.key.Some? && HoldsKey(s, p, pr.key.value)
    && pr.key.value in s.keys && s.keys[pr.key.value].result.None?
    && e.complete == Some(Stored(201, Some(Sealed(pr.key.value, 201, BodyOf(e.id, e.row, pr.job)))))
  }

  /** The transition a job asks for. */
  predicate Asks(job: Job, t: TunnelId, e: Event) {
    match job
    case RevokeJob(tunnel, _) => e.Revoke? && t == tunnel
    case NewProxyJob(_, proxyName, _) => e.NewProxy? && t == proxyName
    case CloseProxyJob(proxyName) => e.CloseProxy? && t == proxyName
    case _ => false
  }

  ghost predicate MovingInv(s: State, p: Pid, pr: Proc)
    requires pr.tx.effect.Moving?
  {
    var e := pr.tx.effect;
    && HoldsRow(s, p, e.t) && e.t in s.tunnels
    && Asks(pr.job, e.t, e.e)
    && (pr.job.RevokeJob? && pr.job.owner.Some? ==> s.tunnels[e.t].user == pr.job.owner.value)
    && (e.to.Some? ==> Edge(s.tunnels[e.t].status, e.e) == e.to)
    && (e.to.Some? && e.e.NewProxy? ==> e.grant.Some? && e.grant.value.callback == p)
    && (e.grant.Some? ==> e.e.NewProxy? && e.to.Some? && Granted(s, e.t, e.grant.value))
    && (e.logged ==> e.to.Some?)
    && (e.revoked ==> e.e.Revoke? && (e.to.Some? ==> e.logged))
    && (e.to.None? && (pr.pc.InTx? || pr.tx.phase.Committing?) ==> NothingToDo(s.tunnels[e.t].status, e.e))
  }

  /** The two successful calls that write no status: revoking a terminal row, reconnecting an active one. */
  predicate NothingToDo(current: Status, e: Event) {
    (e.Revoke? && !NonTerminal(current)) || (e.NewProxy? && current.Active?)
  }

  ghost predicate ReapingInv(s: State, p: Pid, pr: Proc)
    requires pr.tx.effect.Reaping?
  {
    && pr.job.ReapJob? && pr.tx.effect.done <= pr.tx.effect.rows
    && forall t :: t in pr.tx.effect.rows ==>
         && HoldsRow(s, p, t) && t in s.tunnels
         && NonTerminal(s.tunnels[t].status) && s.tunnels[t].expiresAt < pr.tx.begun
  }

  ghost predicate EffectInv(cfg: Config, s: State, p: Pid, pr: Proc) {
    match pr.tx.effect
    case Idle => !pr.tx.phase.Committing?
    case Creating(_, _, _, _, _) => CreatingInv(cfg, s, p, pr)
    case Moving(_, _, _, _, _, _) => MovingInv(s, p, pr)
    case Reaping(_, _) => ReapingInv(s, p, pr)
  }

  ghost predicate PcInv(cfg: Config, s: State, p: Pid, pr: Proc) {
    match pr.pc
    case QuotaLock => pr.tx.effect.Idle? && pr.job.CreateJob?
    case Counting => pr.tx.effect.Idle? && pr.job.CreateJob? && HoldsQuota(cfg, s, p, pr.job.user)
    case Inserting(count, attempt) =>
      && pr.tx.effect.Idle? && pr.job.CreateJob? && HoldsQuota(cfg, s, p, pr.job.user)
      && Usage(s.tunnels, pr.job.user) <= count < cfg.maxConcurrent && attempt < 3
    case LockingRow(t, e, via) =>
      && pr.tx.effect.Idle? && Asks(pr.job, t, e)
      && (e.NewProxy? ==> via.Some?) && (via.Some? ==> Presented(s, p, t, via.value))
    case RowLocked(read, checkedAt, via) =>
      && pr.tx.effect.Moving? && pr.tx.effect.to.None? && !pr.tx.effect.logged && !pr.tx.effect.revoked
      && pr.tx.effect.t in s.tunnels && s.tunnels[pr.tx.effect.t].status == read
      && (pr.tx.effect.e.NewProxy? ==> via.Some?)
      && (via.Some? ==> Presented(s, p, pr.tx.effect.t, via.value))
      && (checkedAt.Some? ==> checkedAt.value <= s.now && checkedAt.value < s.tunnels[pr.tx.effect.t].expiresAt)
      && (checkedAt.Some? ==> !read.Active?)
    case InTx => !pr.tx.effect.Idle?
    case _ => true
  }

  /** A creation's 201 is backed by a commit: its own, or one under the same key. */
  ghost predicate Backed(trace: seq<Obs>, p: Pid, key: Option<IdemKey>, body: Body) {
    exists i :: 0 <= i < |trace| && Backs(trace[i], p, key, body)
  }

  ghost predicate Backs(o: Obs, p: Pid, key: Option<IdemKey>, body: Body) {
    o.TunnelCommitted? && o.key == key && o.body == body && (key.None? ==> o.pid == p)
  }

  ghost predicate ReplyInv(s: State, p: Pid, pr: Proc) {
    && (Visible(pr.pc).Some? && Visible(pr.pc).value.status == 201 ==>
          Backed(s.trace, p, pr.key, Visible(pr.pc).value.body))
    && (pr.pc.AwaitingCommit? && pr.pc.onAck.status == 201 ==>
          && (pr.tx.phase.Committed? ==> Backed(s.trace, p, pr.key, pr.pc.onAck.body))
          && (Live(pr.tx) ==> pr.tx.effect.Creating? && pr.pc.onAck == AckReply(pr)))
  }

  ghost predicate Shape(s: State, p: Pid, pr: Proc) {
    && (pr.key.Some? ==> FromApi(pr.job)) && (pr.holds ==> pr.key.Some?)
    && (pr.key.Some? && (pr.pc.Handling? || !pr.tx.phase.Outside?) ==> pr.holds)
    && (pr.pc.Arrived? || pr.pc.Existing? || pr.pc.Handling? ==> pr.tx.phase.Outside?)
    && (pr.pc.AwaitingCommit? ==> !pr.tx.phase.Open?)
    && (pr.tx.phase.Committing? ==> ReadyToCommit(pr))
    && (!Live(pr.tx) ==> pr.tx.effect.Idle?)
    && (pr.pc.Existing? ==> pr.key.Some?)
    && pr.tx.begun <= s.now
    && (!pr.tx.phase.Committed? ==> p !in s.issued)
  }

  /** Entry pr would be sound for process p in state s. */
  ghost predicate ProcOk(cfg: Config, s: State, p: Pid, pr: Proc) {
    && Shape(s, p, pr)
    && (Live(pr.tx) ==> EffectInv(cfg, s, p, pr))
    && (pr.tx.phase.Open? ==> PcInv(cfg, s, p, pr))
    && ReplyInv(s, p, pr)
  }

  ghost predicate ProcInv(cfg: Config, s: State, p: Pid) {
    p in s.procs && ProcOk(cfg, s, p, s.procs[p])
  }

  // ----- the tables and history -----

  ghost predicate QuotaKept(cfg: Config, s: State) {
    forall u :: Usage(s.tunnels, u) <= cfg.maxConcurrent
  }

  /** Swept credentials were dead, and what remains is what was issued. */
  ghost predicate TokensFollowIssue(s: State) {
    && (forall r :: r in s.tokens ==> r in s.issued && s.tokens[r] == s.issued[r])
    && (forall r :: r in s.issued && r !in s.tokens ==> !TokenAlive(s.issued[r], s.now))
  }

  ghost predicate ServingGranted(s: State) {
    && (forall t :: t in s.tunnels && (s.tunnels[t].status.Active? || s.tunnels[t].status.Closed?) ==> t in s.grants)
    && (forall t :: t in s.grants ==> Granted(s, t, s.grants[t]))
  }

  ghost predicate RowInv(s: State, k: IdemKey)
    requires k in s.keys
  {
    var row := s.keys[k];
    && row.createdAt <= s.now
    && row.reservedBy in s.procs && s.procs[row.reservedBy].key == Some(k) && s.procs[row.reservedBy].hash == row.hash
    && (row.result.Some? && row.result.value.body.Some? ==>
          && OpenSealed(k, row.result.value.status, row.result.value.body.value).Some?
          && (row.result.value.status == 201 ==> Backed(s.trace, 0, Some(k), row.result.value.body.value.plain)))
  }

  ghost predicate KeysInv(s: State) {
    forall k :: k in s.keys ==> RowInv(s, k)
  }

  /** A response and the fingerprint of the request whose commit made it. */
  datatype Due = Due(hash: Fingerprint, body: Body)

  /** What the server owes for key k: the response of the last commit under k not swept since. */
  function Owed(trace: seq<Obs>, k: IdemKey): Option<Due> {
    if trace == [] then None
    else
      match trace[|trace| - 1]
      case TunnelCommitted(_, key, hash, body) =>
        if key == Some(k) then Some(Due(hash, body)) else Owed(trace[..|trace| - 1], k)
      case ReplySwept(swept, _, _) => if swept == k then None else Owed(trace[..|trace| - 1], k)
  }

  ghost predicate Recoverable(s: State, k: IdemKey) {
    Owed(s.trace, k).Some? ==>
      k in s.keys && s.keys[k].result == Some(Stored(201, Some(Sealed(k, 201, Owed(s.trace, k).value.body))))
  }

  ghost predicate CommitUnder(o: Obs, k: IdemKey) {
    o.TunnelCommitted? && o.key == Some(k)
  }

  ghost predicate SweptBetween(trace: seq<Obs>, k: IdemKey, i: int, j: int)
    requires 0 <= i <= j <= |trace|
  {
    exists m :: i < m < j && trace[m].ReplySwept? && trace[m].swept == k
  }

  /** Two commits under one key always have a sweep of that key's completed row between them. */
  ghost predicate Separated(trace: seq<Obs>) {
    forall i, j, k :: 0 <= i < j < |trace| && CommitUnder(trace[i], k) && CommitUnder(trace[j], k) ==>
      SweptBetween(trace, k, i, j)
  }

  ghost predicate CommitsByPid(s: State) {
    && (forall i :: 0 <= i < |s.trace| && s.trace[i].TunnelCommitted? ==>
          s.trace[i].pid in s.procs && s.procs[s.trace[i].pid].tx.phase.Committed?)
    && (forall i, j :: 0 <= i < j < |s.trace| && s.trace[i].TunnelCommitted? && s.trace[j].TunnelCommitted? ==>
          s.trace[i].pid != s.trace[j].pid)
  }

  ghost predicate HistoryInv(s: State) {
    && (forall k :: Recoverable(s, k))
    && Separated(s.trace)
    && CommitsByPid(s)
  }

  ghost predicate ProcsInv(cfg: Config, s: State) {
    forall p :: p in s.procs ==> ProcInv(cfg, s, p)
  }

  ghost predicate Inv(cfg: Config, s: State) {
    && ProcsInv(cfg, s)
    && Sound(MaxTtl(cfg), LedgerOf(s), s.now)
    && QuotaKept(cfg, s)
    && TokensFollowIssue(s)
    && ServingGranted(s)
    && KeysInv(s)
    && HistoryInv(s)
    && (forall r :: r in s.issued ==> r in s.procs)
    && (forall k :: k in s.keyLocks ==> k in s.keys)
  }

  // ----- interference -----

  /** What process q relies on when some other process moves the state from s to s'. */
  ghost predicate Undisturbed(cfg: Config, s: State, s': State, q: Pid) {
    && q in s.procs && q in s'.procs && s'.procs[q] == s.procs[q]
    && s.now <= s'.now
    && (forall t :: HoldsRow(s, q, t) ==>
          && HoldsRow(s', q, t) && (t in s.tunnels <==> t in s'.tunnels)
          && (t in s.tunnels ==> s'.tunnels[t] == s.tunnels[t]))
    && (forall k :: HoldsKey(s, q, k) ==>
          && HoldsKey(s', q, k) && (k in s.keys <==> k in s'.keys)
          && (k in s.keys ==> s'.keys[k] == s.keys[k]))
    && (forall u :: HoldsQuota(cfg, s, q, u) ==>
          HoldsQuota(cfg, s', q, u) && Usage(s'.tunnels, u) <= Usage(s.tunnels, u))
    && (q !in s.issued ==> q !in s'.issued)
    && Grown(s, s')
  }

  /** Facts no step takes back. */
  ghost predicate Grown(s: State, s': State) {
    && (forall r :: r in s.issued ==>
          r in s'.issued && s'.issued[r].tunnel == s.issued[r].tunnel && s'.issued[r].digest == s.issued[r].digest
          && s'.issued[r].expiresAt == s.issued[r].expiresAt
          && (s.issued[r].revokedAt.Some? ==> s'.issued[r].revokedAt.Some?))
    && s.trace <= s'.trace
    && (forall p :: p in s.procs ==>
          p in s'.procs && s'.procs[p].job == s.procs[p].job && s'.procs[p].key == s.procs[p].key
          && s'.procs[p].hash == s.procs[p].hash)
    && (forall t :: t in s.tunnels ==>
          t in s'.tunnels && s'.tunnels[t].expiresAt == s.tunnels[t].expiresAt
          && s'.tunnels[t].user == s.tunnels[t].user)
  }

  lemma BackedGrows(a: seq<Obs>, b: seq<Obs>, p: Pid, key: Option<IdemKey>, body: Body)
    requires a <= b && Backed(a, p, key, body)
    ensures Backed(b, p, key, body)
  {
    var i :| 0 <= i < |a| && Backs(a[i], p, key, body);
    assert b[i] == a[i];
  }

  lemma GrantGrows(s: State, s': State, t: TunnelId, g: Grant)
    requires Grown(s, s') && s.now <= s'.now && Granted(s, t, g)
    ensures Granted(s', t, g)
  {}

  lemma EffectUndisturbed(cfg: Config, s: State, s': State, q: Pid)
    requires Undisturbed(cfg, s, s', q) && ProcInv(cfg, s, q) && Live(s.procs[q].tx)
    ensures EffectInv(cfg, s', q, s'.procs[q])
  {
    var pr := s.procs[q];
    match pr.tx.effect
    case Idle =>
    case Creating(_, _, _, _, _) =>
      assert CreatingInv(cfg, s, q, pr);
      assert CreatingInv(cfg, s', q, pr);
    case Moving(_, _, _, _, _, _) =>
      assert MovingInv(s, q, pr);
      if pr.tx.effect.grant.Some? { GrantGrows(s, s', pr.tx.effect.t, pr.tx.effect.grant.value); }
      assert MovingInv(s', q, pr);
    case Reaping(_, _) =>
      assert ReapingInv(s, q, pr);
      assert ReapingInv(s', q, pr);
  }

  lemma PcUndisturbed(cfg: Config, s: State, s': State, q: Pid)
    requires Undisturbed(cfg, s, s', q) && ProcInv(cfg, s, q) && s.procs[q].tx.phase.Open?
    ensures PcInv(cfg, s', q, s'.procs[q])
  {
    var pr := s.procs[q];
    assert PcInv(cfg, s, q, pr) && EffectInv(cfg, s, q, pr);
    match pr.pc
    case LockingRow(t, e, via) =>
      if via.Some? { assert Presented(s, q, t, via.value); assert Presented(s', q, t, via.value); }
    case RowLocked(read, checkedAt, via) =>
      assert MovingInv(s, q, pr);
      if via.Some? {
        assert Presented(s, q, pr.tx.effect.t, via.value);
        assert Presented(s', q, pr.tx.effect.t, via.value);
      }
    case _ =>
  }

  /** Locks are what make interference harmless: an undisturbed process keeps its invariant. */
  lemma ProcUndisturbed(cfg: Config, s: State, s': State, q: Pid)
    requires Undisturbed(cfg, s, s', q) && ProcInv(cfg, s, q)
    ensures ProcInv(cfg, s', q)
  {
    var pr := s.procs[q];
    if Live(pr.tx) { EffectUndisturbed(cfg, s, s', q); }
    if pr.tx.phase.Open? { PcUndisturbed(cfg, s, s', q); }
    if Visible(pr.pc).Some? && Visible(pr.pc).value.status == 201 {
      BackedGrows(s.trace, s'.trace, q, pr.key, Visible(pr.pc).value.body);
    }
    if pr.pc.AwaitingCommit? && pr.pc.onAck.status == 201 && pr.tx.phase.Committed? {
      BackedGrows(s.trace, s'.trace, q, pr.key, pr.pc.onAck.body);
    }
  }
}
