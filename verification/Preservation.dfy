// Every step except the commit keeps the invariant. A step of process p is shown to leave a sound
// entry for p; locks and monotone history carry everybody else across.

module Preservation {
  import opened Prelude
  import opened Schema
  import opened Lifecycle
  import opened ControlPlane
  import opened Invariant

  ghost predicate SameRequest(a: Proc, b: Proc) {
    a.job == b.job && a.key == b.key && a.hash == b.hash && (a.tx.phase.Committed? ==> b.tx.phase.Committed?)
  }

  // ----- steps that change only p's entry and locks -----

  /** s1 is s after process p took or dropped locks. */
  ghost predicate Relocked(s: State, s1: State, p: Pid) {
    && s1 == s.(rowLocks := s1.rowLocks, keyLocks := s1.keyLocks, advisory := s1.advisory)
    && (forall t :: t in s.rowLocks && s.rowLocks[t] != p ==> t in s1.rowLocks && s1.rowLocks[t] == s.rowLocks[t])
    && (forall k :: k in s.keyLocks && s.keyLocks[k] != p ==> k in s1.keyLocks && s1.keyLocks[k] == s.keyLocks[k])
    && (forall a :: a in s.advisory && s.advisory[a] != p ==> a in s1.advisory && s1.advisory[a] == s.advisory[a])
    && (forall k :: k in s1.keyLocks ==> k in s.keyLocks || k in s.keys)
  }

  lemma PutOwnEffect(cfg: Config, s: State, p: Pid, pr: Proc)
    requires p in s.procs && s.procs[p].job == pr.job && EffectInv(cfg, s, p, pr)
    ensures EffectInv(cfg, Put(s, p, pr), p, pr)
  {
    var s' := Put(s, p, pr);
    match pr.tx.effect
    case Idle =>
    case Creating(_, _, _, _, _) => assert CreatingInv(cfg, s', p, pr);
    case Moving(_, _, _, _, _, _) => assert MovingInv(s', p, pr);
    case Reaping(_, _) => assert ReapingInv(s', p, pr);
  }

  lemma PutOwnPc(cfg: Config, s: State, p: Pid, pr: Proc)
    requires p in s.procs && s.procs[p].job == pr.job && PcInv(cfg, s, p, pr)
    ensures PcInv(cfg, Put(s, p, pr), p, pr)
  {
    var s' := Put(s, p, pr);
    match pr.pc
    case LockingRow(t, e, via) => if via.Some? { assert Presented(s', p, t, via.value); }
    case RowLocked(_, _, via) => if via.Some? { assert Presented(s', p, pr.tx.effect.t, via.value); }
    case _ =>
  }

  lemma PutOwn(cfg: Config, s: State, p: Pid, pr: Proc)
    requires p in s.procs && s.procs[p].job == pr.job && ProcOk(cfg, s, p, pr)
    ensures ProcInv(cfg, Put(s, p, pr), p)
  {
    if Live(pr.tx) { PutOwnEffect(cfg, s, p, pr); }
    if pr.tx.phase.Open? { PutOwnPc(cfg, s, p, pr); }
  }

  lemma PutUndisturbed(cfg: Config, s: State, s1: State, p: Pid, pr: Proc, q: Pid)
    requires p in s.procs && Relocked(s, s1, p) && SameRequest(s.procs[p], pr) && q in s.procs && q != p
    ensures Undisturbed(cfg, s, Put(s1, p, pr), q)
  {
    forall u | HoldsQuota(cfg, s, q, u) ensures HoldsQuota(cfg, s1, q, u) {}
  }

  lemma PutOthers(cfg: Config, s: State, s1: State, p: Pid, pr: Proc)
    requires ProcsInv(cfg, s) && p in s.procs && Relocked(s, s1, p) && SameRequest(s.procs[p], pr)
    requires ProcInv(cfg, Put(s1, p, pr), p)
    ensures ProcsInv(cfg, Put(s1, p, pr))
  {
    var s' := Put(s1, p, pr);
    forall q | q in s.procs && q != p ensures ProcInv(cfg, s', q) {
      PutUndisturbed(cfg, s, s1, p, pr, q);
      ProcUndisturbed(cfg, s, s', q);
    }
  }

  /** Tables and history do not notice a change of process entries. */
  lemma PutTables(s: State, s1: State, p: Pid, pr: Proc)
    requires KeysInv(s) && ServingGranted(s) && p in s.procs && Relocked(s, s1, p) && SameRequest(s.procs[p], pr)
    ensures KeysInv(Put(s1, p, pr)) && ServingGranted(Put(s1, p, pr))
  {
    var s' := Put(s1, p, pr);
    forall k | k in s'.keys ensures RowInv(s', k) { assert RowInv(s, k); }
    forall t | t in s'.grants ensures Granted(s', t, s'.grants[t]) { assert Granted(s, t, s.grants[t]); }
  }

  lemma PutHistory(s: State, s1: State, p: Pid, pr: Proc)
    requires HistoryInv(s) && p in s.procs && Relocked(s, s1, p) && SameRequest(s.procs[p], pr)
    ensures HistoryInv(Put(s1, p, pr))
  {
    var s' := Put(s1, p, pr);
    forall k ensures Recoverable(s', k) { assert Recoverable(s, k); }
  }

  lemma PutKept(cfg: Config, s: State, s1: State, p: Pid, pr: Proc)
    requires Inv(cfg, s) && p in s.procs && Relocked(s, s1, p) && SameRequest(s.procs[p], pr) && ProcOk(cfg, s1, p, pr)
    ensures Inv(cfg, Put(s1, p, pr))
  {
    PutOwn(cfg, s1, p, pr);
    PutOthers(cfg, s, s1, p, pr);
    PutTables(s, s1, p, pr);
    PutHistory(s, s1, p, pr);
  }

  // ----- the entries left by each step -----

  lemma ServedBacked(s: State, p: Pid, pr: Proc, k: IdemKey)
    requires k in s.keys && RowInv(s, k)
    ensures var r := ExistingReply(k, pr.hash, s.keys[k]);
            r.status == 201 ==> Backed(s.trace, p, Some(k), r.body)
  {
    var r := ExistingReply(k, pr.hash, s.keys[k]);
    if r.status == 201 {
      assert Backed(s.trace, 0, Some(k), r.body);
      var i :| 0 <= i < |s.trace| && Backs(s.trace[i], 0, Some(k), r.body);
      assert Backs(s.trace[i], p, Some(k), r.body);
    }
  }

  lemma ServingExistingOk(cfg: Config, s: State, p: Pid)
    requires ProcInv(cfg, s, p) && KeysInv(s) && CanServeExisting(s, p)
    ensures ProcOk(cfg, s, p, ServingExisting(s, s.procs[p]))
  {
    var k := s.procs[p].key.value;
    if k in s.keys { assert RowInv(s, k); ServedBacked(s, p, s.procs[p], k); }
  }

  lemma StartOk(cfg: Config, s: State, p: Pid)
    requires ProcInv(cfg, s, p) && s.procs[p].pc.Arrived?
    ensures s.procs[p].key.None? ==> ProcOk(cfg, s, p, At(s.procs[p], Handling))
    ensures s.procs[p].key.Some? ==> ProcOk(cfg, s, p, At(s.procs[p], Existing))
  {}

  /** Leaving the handler with anything but a 201 asks nothing of the transaction left behind. */
  lemma LeftOk(cfg: Config, s: State, p: Pid, pc: Pc)
    requires ProcInv(cfg, s, p)
    requires pc.Responded? || pc.Gone? || pc.Panicked?
    requires Visible(pc).None? || Visible(pc).value.status != 201 || Visible(pc) == Visible(s.procs[p].pc)
    ensures ProcOk(cfg, s, p, At(s.procs[p], pc))
  {
    if Live(s.procs[p].tx) { LeftEffect(cfg, s, p, pc); }
  }

  lemma LeftEffect(cfg: Config, s: State, p: Pid, pc: Pc)
    requires p in s.procs && EffectInv(cfg, s, p, s.procs[p]) && (pc.Responded? || pc.Gone? || pc.Panicked?)
    ensures EffectInv(cfg, s, p, At(s.procs[p], pc))
  {
    var pr := s.procs[p];
    match pr.tx.effect
    case Idle =>
    case Creating(_, _, _, _, _) => assert CreatingInv(cfg, s, p, At(pr, pc));
    case Moving(_, _, _, _, _, _) => assert MovingInv(s, p, At(pr, pc));
    case Reaping(_, _) => assert ReapingInv(s, p, At(pr, pc));
  }

  lemma RefuseOk(cfg: Config, s: State, p: Pid, status: int)
    requires ProcInv(cfg, s, p) && status != 201
    ensures ProcOk(cfg, s, p, Refuse(s.procs[p], status))
  {
    LeftOk(cfg, s, p, Refuse(s.procs[p], status).pc);
  }

  lemma BeginCreateOk(cfg: Config, s: State, p: Pid)
    requires ProcInv(cfg, s, p) && CanBeginCreate(s, p)
    ensures ProcOk(cfg, s, p, BeginningCreate(cfg, s, s.procs[p]))
  {}

  lemma QuotaLockOk(cfg: Config, s: State, p: Pid)
    requires ProcInv(cfg, s, p) && CanTakeQuotaLock(cfg, s, p)
    ensures ProcOk(cfg, s.(advisory := s.advisory[LockOf(cfg, s.procs[p].job.user) := p]), p, At(s.procs[p], Counting))
  {}

  lemma CountTunnelsOk(cfg: Config, s: State, p: Pid)
    requires ProcInv(cfg, s, p) && CanCountTunnels(s, p)
    ensures ProcOk(cfg, s, p, CountingTunnels(cfg, s, s.procs[p]))
  {
    RefuseOk(cfg, s, p, 403);
  }

  lemma InsertTunnelOk(cfg: Config, s: State, p: Pid, id: TunnelId)
    requires ProcInv(cfg, s, p) && CanInsertTunnel(cfg, s, p, id)
    ensures ProcOk(cfg, s.(rowLocks := s.rowLocks[id := p]), p, InsertingTunnel(cfg, s, s.procs[p], id))
  {}

  lemma TryAgainOk(cfg: Config, s: State, p: Pid, id: TunnelId)
    requires ProcInv(cfg, s, p) && CanConflict(cfg, s, p, id)
    ensures ProcOk(cfg, s, p, TryingAgain(s.procs[p]))
  {
    RefuseOk(cfg, s, p, 500);
  }

  lemma StoreTokenOk(cfg: Config, s: State, p: Pid)
    requires ProcInv(cfg, s, p) && CanStoreToken(s, p)
    ensures ProcOk(cfg, s, p, StoringToken(s.procs[p]))
  {}

  lemma LogEventOk(cfg: Config, s: State, p: Pid)
    requires ProcInv(cfg, s, p) && CanLogEvent(s, p)
    ensures ProcOk(cfg, s, p, LoggingEvent(s.procs[p]))
  {}

  lemma CompleteKeyOk(cfg: Config, s: State, p: Pid)
    requires ProcInv(cfg, s, p) && CanCompleteKey(s, p)
    ensures ProcOk(cfg, s.(keyLocks := s.keyLocks[s.procs[p].key.value := p]), p, CompletingKey(s.procs[p]))
  {
    var s1, pr := s.(keyLocks := s.keyLocks[s.procs[p].key.value := p]), CompletingKey(s.procs[p]);
    assert CreatingInv(cfg, s, p, s.procs[p]);
    assert CompletingInv(s1, p, pr);
  }

  lemma BeginRevokeOk(cfg: Config, s: State, p: Pid)
    requires ProcInv(cfg, s, p) && CanBeginRevoke(s, p)
    ensures ProcOk(cfg, s, p, BeginningRevoke(s, s.procs[p]))
  {}

  lemma LookupTokenOk(cfg: Config, s: State, p: Pid, r: nat)
    requires ProcInv(cfg, s, p) && TokensFollowIssue(s) && CanLookupToken(s, p, r)
    ensures ProcOk(cfg, s, p, LookingUpToken(s, s.procs[p], r))
  {
    if s.procs[p].job.proxyName == s.tokens[r].tunnel == s.procs[p].job.subdomain {
      assert Presented(s, p, s.tokens[r].tunnel, r);
    }
  }

  lemma ReadStatusOk(cfg: Config, s: State, p: Pid)
    requires ProcInv(cfg, s, p) && CanReadStatus(s, p)
    ensures ProcOk(cfg, s, p, ReadingStatus(s, s.procs[p]))
  {}

  lemma LockRowOk(cfg: Config, s: State, p: Pid)
    requires ProcInv(cfg, s, p) && CanLockRow(s, p)
    ensures ProcOk(cfg, s.(rowLocks := s.rowLocks[s.procs[p].pc.t := p]), p, TakingRow(s, s.procs[p]))
  {
    var s1, pr := s.(rowLocks := s.rowLocks[s.procs[p].pc.t := p]), s.procs[p];
    assert PcInv(cfg, s, p, pr);
    if pr.pc.via.Some? { assert Presented(s1, p, pr.pc.t, pr.pc.via.value); }
  }

  lemma CheckClockOk(cfg: Config, s: State, p: Pid)
    requires ProcInv(cfg, s, p) && CanCheckClock(s, p)
    ensures ProcOk(cfg, s, p, CheckingClock(s, s.procs[p]))
  {
    RefuseOk(cfg, s, p, 200);
  }

  lemma UpdateStatusOk(cfg: Config, s: State, p: Pid)
    requires ProcInv(cfg, s, p) && CanUpdateStatus(s, p)
    ensures ProcOk(cfg, s, p, UpdatingStatus(s, p, s.procs[p]))
  {
    RefuseOk(cfg, s, p, 500);
    var pr, pr' := s.procs[p], UpdatingStatus(s, p, s.procs[p]);
    assert PcInv(cfg, s, p, pr) && MovingInv(s, p, pr);
    if pr'.tx.effect.grant.Some? && pr'.pc.InTx? {
      assert Granted(s, pr.tx.effect.t, pr'.tx.effect.grant.value);
    }
  }

  lemma RevokeTokensOk(cfg: Config, s: State, p: Pid)
    requires ProcInv(cfg, s, p) && CanRevokeTokens(s, p)
    ensures ProcOk(cfg, s, p, RevokingTokens(s.procs[p]))
  {}

  lemma BeginReapOk(cfg: Config, s: State, p: Pid)
    requires ProcInv(cfg, s, p) && CanBeginReap(s, p)
    ensures ProcOk(cfg, s, p, At(Begun(s.procs[p], s.now, Reaping({}, {})), InTx))
  {}

  lemma ReapRowOk(cfg: Config, s: State, p: Pid, t: TunnelId)
    requires ProcInv(cfg, s, p) && CanReapRow(s, p, t)
    ensures ProcOk(cfg, s.(rowLocks := s.rowLocks[t := p]), p, ReapingRow(s.procs[p], t))
  {}

  lemma LogExpiryOk(cfg: Config, s: State, p: Pid, t: TunnelId)
    requires ProcInv(cfg, s, p) && CanLogExpiry(s, p, t)
    ensures ProcOk(cfg, s, p, LoggingExpiry(s.procs[p], t))
  {}

  lemma SendCommitOk(cfg: Config, s: State, p: Pid)
    requires ProcInv(cfg, s, p) && CanSendCommit(s, p)
    ensures ProcOk(cfg, s, p, SendingCommit(s.procs[p]))
  {}

  lemma AbortTxOk(cfg: Config, s: State, p: Pid)
    requires ProcInv(cfg, s, p) && Live(s.procs[p].tx)
    ensures ProcOk(cfg, Unlocked(s, p), p, Ended(s.procs[p], Aborted))
  {}

  lemma AckCommitOk(cfg: Config, s: State, p: Pid)
    requires ProcInv(cfg, s, p) && CanAckCommit(s, p)
    ensures ProcOk(cfg, s, p, AckingCommit(s.procs[p]))
  {}

  lemma LeaveOk(cfg: Config, s: State, p: Pid)
    requires ProcInv(cfg, s, p)
    ensures ProcOk(cfg, s, p, Leaving(s.procs[p]))
  {
    LeftOk(cfg, s, p, Leaving(s.procs[p]).pc);
  }

  // ----- arrivals, the clock and the token sweeper -----

  /** Everyone's locked data is untouched and no process entry changes, though one may arrive. */
  lemma ArriveKept(cfg: Config, s: State, p: Pid, job: Job, key: Option<IdemKey>, hash: Fingerprint)
    requires Inv(cfg, s) && p !in s.procs && (key.Some? ==> FromApi(job))
    ensures Inv(cfg, Put(s, p, Arriving(job, key, hash)))
  {
    var s' := Put(s, p, Arriving(job, key, hash));
    ArriveProcs(cfg, s, p, job, key, hash);
    forall k | k in s'.keys ensures RowInv(s', k) { assert RowInv(s, k); }
    forall t | t in s'.grants ensures Granted(s', t, s'.grants[t]) { assert Granted(s, t, s.grants[t]); }
    forall k ensures Recoverable(s', k) { assert Recoverable(s, k); }
  }

  lemma ArriveProcs(cfg: Config, s: State, p: Pid, job: Job, key: Option<IdemKey>, hash: Fingerprint)
    requires ProcsInv(cfg, s) && p !in s.procs && (key.Some? ==> FromApi(job)) && p !in s.issued
    ensures ProcsInv(cfg, Put(s, p, Arriving(job, key, hash)))
  {
    var s' := Put(s, p, Arriving(job, key, hash));
    forall q | q in s.procs ensures ProcInv(cfg, s', q) {
      assert Undisturbed(cfg, s, s', q);
      ProcUndisturbed(cfg, s, s', q);
    }
  }

  /** The clock and the sweepers touch no process, no lock and no locked row. */
  ghost predicate Background(s: State, s': State) {
    && s' == s.(now := s'.now, tokens := s'.tokens, keys := s'.keys, trace := s'.trace)
    && s.now <= s'.now && s.trace <= s'.trace
    && forall k :: k in s.keyLocks ==> (k in s.keys <==> k in s'.keys) && (k in s.keys ==> s'.keys[k] == s.keys[k])
  }

  lemma BackgroundProcs(cfg: Config, s: State, s': State)
    requires ProcsInv(cfg, s) && Background(s, s')
    ensures ProcsInv(cfg, s')
  {
    assert Grown(s, s');
    forall q | q in s'.procs ensures ProcInv(cfg, s', q) {
      assert Undisturbed(cfg, s, s', q);
      ProcUndisturbed(cfg, s, s', q);
    }
  }

  lemma BackgroundGrants(s: State, s': State)
    requires ServingGranted(s) && Background(s, s')
    ensures ServingGranted(s')
  {
    assert Grown(s, s');
    forall t | t in s'.grants ensures Granted(s', t, s'.grants[t]) { GrantGrows(s, s', t, s.grants[t]); }
  }

  /** Rows and history where both stay as they are. */
  lemma BackgroundRows(s: State, s': State)
    requires KeysInv(s) && HistoryInv(s) && Background(s, s') && s'.keys == s.keys && s'.trace == s.trace
    ensures KeysInv(s') && HistoryInv(s')
  {
    forall k | k in s'.keys ensures RowInv(s', k) { assert RowInv(s, k); }
    forall k ensures Recoverable(s', k) { assert Recoverable(s, k); }
  }

  lemma TickKept(cfg: Config, s: State, elapsed: nat)
    requires Inv(cfg, s)
    ensures Inv(cfg, s.(now := s.now + elapsed))
  {
    var s' := s.(now := s.now + elapsed);
    BackgroundProcs(cfg, s, s');
    BackgroundGrants(s, s');
    BackgroundRows(s, s');
  }

  lemma SweepTokenKept(cfg: Config, s: State, r: nat)
    requires Inv(cfg, s) && r in s.tokens && Sweepable(cfg, s.tokens[r], s.now)
    ensures Inv(cfg, s.(tokens := s.tokens - {r}))
  {
    var s' := s.(tokens := s.tokens - {r});
    BackgroundProcs(cfg, s, s');
    BackgroundGrants(s, s');
    BackgroundRows(s, s');
    SweptFollowsIssue(cfg, s, r);
  }

  lemma SweptFollowsIssue(cfg: Config, s: State, r: nat)
    requires TokensFollowIssue(s) && r in s.tokens && Sweepable(cfg, s.tokens[r], s.now)
    requires LogExplains(LedgerOf(s)) && CredentialsAgree(LedgerOf(s)) && TimesAgree(MaxTtl(cfg), LedgerOf(s), s.now)
    ensures TokensFollowIssue(s.(tokens := s.tokens - {r}))
  {}

  // ----- idempotency rows -----

  /** s1 is s with only row k changed, where nobody has it locked and a completed row stays. */
  ghost predicate Rewritten(s: State, s1: State, k: IdemKey) {
    && s1 == s.(keys := s1.keys)
    && k !in s.keyLocks
    && (forall j :: j != k ==> (j in s1.keys <==> j in s.keys) && (j in s.keys ==> s1.keys[j] == s.keys[j]))
    && (k in s.keys && s.keys[k].result.Some? ==> k in s1.keys && s1.keys[k] == s.keys[k])
  }

  lemma RewrittenOwn(cfg: Config, s: State, s1: State, k: IdemKey, p: Pid, pr: Proc)
    requires Rewritten(s, s1, k) && ProcOk(cfg, s, p, pr)
    ensures ProcOk(cfg, s1, p, pr)
  {
    if Live(pr.tx) && pr.tx.effect.Creating? && pr.tx.effect.complete.Some? {
      assert CompletingInv(s, p, pr);
      assert CompletingInv(s1, p, pr);
    }
  }

  lemma RewrittenUndisturbed(cfg: Config, s: State, s1: State, k: IdemKey, p: Pid, pr: Proc, q: Pid)
    requires Rewritten(s, s1, k) && p in s.procs && SameRequest(s.procs[p], pr) && q in s.procs && q != p
    ensures Undisturbed(cfg, s, Put(s1, p, pr), q)
  {}

  lemma RewrittenProcs(cfg: Config, s: State, s1: State, k: IdemKey, p: Pid, pr: Proc)
    requires ProcsInv(cfg, s) && Rewritten(s, s1, k) && p in s.procs && SameRequest(s.procs[p], pr)
    requires ProcOk(cfg, s, p, pr)
    ensures ProcsInv(cfg, Put(s1, p, pr))
  {
    var s' := Put(s1, p, pr);
    RewrittenOwn(cfg, s, s1, k, p, pr);
    PutOwn(cfg, s1, p, pr);
    forall q | q in s.procs && q != p ensures ProcInv(cfg, s', q) {
      RewrittenUndisturbed(cfg, s, s1, k, p, pr, q);
      ProcUndisturbed(cfg, s, s', q);
    }
  }

  lemma RewrittenTables(s: State, s1: State, k: IdemKey, p: Pid, pr: Proc)
    requires KeysInv(s) && ServingGranted(s) && HistoryInv(s)
    requires Rewritten(s, s1, k) && p in s.procs && SameRequest(s.procs[p], pr)
    requires k in s1.keys ==> RowInv(Put(s1, p, pr), k)
    ensures var s' := Put(s1, p, pr); KeysInv(s') && ServingGranted(s') && HistoryInv(s')
  {
    var s' := Put(s1, p, pr);
    forall j | j in s'.keys ensures RowInv(s', j) { if j != k { assert RowInv(s, j); } }
    forall t | t in s'.grants ensures Granted(s', t, s'.grants[t]) { assert Granted(s, t, s.grants[t]); }
    forall j ensures Recoverable(s', j) { assert Recoverable(s, j); }
  }

  lemma RewriteKept(cfg: Config, s: State, s1: State, k: IdemKey, p: Pid, pr: Proc)
    requires Inv(cfg, s) && Rewritten(s, s1, k) && p in s.procs && SameRequest(s.procs[p], pr) && ProcOk(cfg, s, p, pr)
    requires k in s1.keys ==> RowInv(Put(s1, p, pr), k)
    ensures Inv(cfg, Put(s1, p, pr))
  {
    RewrittenProcs(cfg, s, s1, k, p, pr);
    RewrittenTables(s, s1, k, p, pr);
  }

  lemma ReserveRow(s: State, p: Pid, ack: bool)
    requires CanReserve(s, p)
    ensures RowInv(Put(s.(keys := WithReservation(s, p)), p, Reserving(s, s.procs[p], ack)), s.procs[p].key.value)
  {}

  lemma ReserveKept(cfg: Config, s: State, p: Pid, ack: bool)
    requires Inv(cfg, s) && CanReserve(s, p)
    ensures Inv(cfg, Put(s.(keys := WithReservation(s, p)), p, Reserving(s, s.procs[p], ack)))
  {
    assert ProcInv(cfg, s, p);
    ReservingOk(cfg, s, p, ack);
    ReserveRow(s, p, ack);
    RewriteKept(cfg, s, s.(keys := WithReservation(s, p)), s.procs[p].key.value, p, Reserving(s, s.procs[p], ack));
  }

  lemma ReservingOk(cfg: Config, s: State, p: Pid, ack: bool)
    requires ProcInv(cfg, s, p) && CanReserve(s, p)
    ensures ProcOk(cfg, s, p, Reserving(s, s.procs[p], ack))
  {}

  lemma PersistRow(s: State, p: Pid, cacheable: bool)
    requires p in s.procs && ReplyInv(s, p, s.procs[p]) && CanPersist(s, p)
    requires s.procs[p].key.value in s.keys ==> RowInv(s, s.procs[p].key.value)
    ensures var k := s.procs[p].key.value;
            var s' := Put(s.(keys := Persisted(s, s.procs[p], cacheable)), p, Leaving(s.procs[p]));
            k in s'.keys ==> RowInv(s', k)
  {
    var k, r := s.procs[p].key.value, s.procs[p].pc.reply;
    if k in s.keys && r.status == 201 {
      var i :| 0 <= i < |s.trace| && Backs(s.trace[i], p, Some(k), r.body);
      assert Backs(s.trace[i], 0, Some(k), r.body);
    }
  }

  lemma PersistRewrites(s: State, p: Pid, cacheable: bool)
    requires CanPersist(s, p)
    ensures Rewritten(s, s.(keys := Persisted(s, s.procs[p], cacheable)), s.procs[p].key.value)
  {}

  lemma PersistOk(cfg: Config, s: State, p: Pid, cacheable: bool)
    requires ProcInv(cfg, s, p) && KeysInv(s) && CanPersist(s, p)
    ensures var s1, k := s.(keys := Persisted(s, s.procs[p], cacheable)), s.procs[p].key.value;
            && Rewritten(s, s1, k) && ProcOk(cfg, s, p, Leaving(s.procs[p]))
            && (k in s1.keys ==> RowInv(Put(s1, p, Leaving(s.procs[p])), k))
  {
    LeaveOk(cfg, s, p);
    PersistRewrites(s, p, cacheable);
    PersistRow(s, p, cacheable);
  }

  lemma PersistKept(cfg: Config, s: State, p: Pid, cacheable: bool)
    requires Inv(cfg, s) && CanPersist(s, p)
    ensures Inv(cfg, Put(s.(keys := Persisted(s, s.procs[p], cacheable)), p, Leaving(s.procs[p])))
  {
    assert ProcInv(cfg, s, p);
    PersistOk(cfg, s, p, cacheable);
    RewriteKept(cfg, s, s.(keys := Persisted(s, s.procs[p], cacheable)), s.procs[p].key.value, p, Leaving(s.procs[p]));
  }

  lemma ReleaseRow(s: State, p: Pid)
    requires CanReleaseAfterPanic(s, p)
    requires s.procs[p].key.value in s.keys ==> RowInv(s, s.procs[p].key.value)
    ensures var k := s.procs[p].key.value;
            var s' := Put(s.(keys := Released(s.keys, k)), p, Leaving(s.procs[p]));
            k in s'.keys ==> RowInv(s', k)
    ensures Rewritten(s, s.(keys := Released(s.keys, s.procs[p].key.value)), s.procs[p].key.value)
  {}

  lemma ReleaseKept(cfg: Config, s: State, p: Pid)
    requires Inv(cfg, s) && CanReleaseAfterPanic(s, p)
    ensures Inv(cfg, Put(s.(keys := Released(s.keys, s.procs[p].key.value)), p, Leaving(s.procs[p])))
  {
    assert ProcInv(cfg, s, p);
    var k := s.procs[p].key.value;
    LeaveOk(cfg, s, p);
    if k in s.keys { assert RowInv(s, k); }
    ReleaseRow(s, p);
    RewriteKept(cfg, s, s.(keys := Released(s.keys, k)), k, p, Leaving(s.procs[p]));
  }

  // ----- history -----

  lemma {:induction false} OwedAppend(trace: seq<Obs>, o: Obs, k: IdemKey)
    ensures Owed(trace + [o], k) ==
      match o
      case TunnelCommitted(_, key, hash, body) => if key == Some(k) then Some(Due(hash, body)) else Owed(trace, k)
      case ReplySwept(swept, _, _) => if swept == k then None else Owed(trace, k)
  {
    assert (trace + [o])[..|trace|] == trace;
  }

  /** Nothing owed under k: every commit under k has been followed by a sweep. */
  lemma {:induction false} NothingOwed(trace: seq<Obs>, k: IdemKey, i: nat)
    requires Owed(trace, k).None? && i < |trace| && CommitUnder(trace[i], k)
    ensures SweptBetween(trace, k, i, |trace|)
  {
    var init, last := trace[..|trace| - 1], trace[|trace| - 1];
    if last.ReplySwept? && last.swept == k {
      assert i < |trace| - 1;
    } else {
      assert init[i] == trace[i];
      NothingOwed(init, k, i);
      var m :| i < m < |init| && init[m].ReplySwept? && init[m].swept == k;
      assert trace[m] == init[m];
    }
  }

  lemma {:induction false} SeparatedAppend(trace: seq<Obs>, o: Obs)
    requires Separated(trace)
    requires forall k :: CommitUnder(o, k) ==> Owed(trace, k).None?
    ensures Separated(trace + [o])
  {
    var t := trace + [o];
    forall i, j, k | 0 <= i < j < |t| && CommitUnder(t[i], k) && CommitUnder(t[j], k) ensures SweptBetween(t, k, i, j) {
      if j == |trace| {
        NothingOwed(trace, k, i);
        var m :| i < m < |trace| && trace[m].ReplySwept? && trace[m].swept == k;
        assert t[m] == trace[m];
      } else {
        assert SweptBetween(trace, k, i, j);
        var m :| i < m < j && trace[m].ReplySwept? && trace[m].swept == k;
        assert t[m] == trace[m];
      }
    }
  }

  lemma SweepHistory(cfg: Config, s: State, k: IdemKey)
    requires HistoryInv(s) && CanSweepKey(cfg, s, k)
    ensures HistoryInv(s.(keys := s.keys - {k}, trace := SweptTrace(s, k)))
  {
    var s' := s.(keys := s.keys - {k}, trace := SweptTrace(s, k));
    if s.keys[k].result.Some? {
      var o := ReplySwept(k, s.keys[k].createdAt, s.now);
      SeparatedAppend(s.trace, o);
      forall j ensures Recoverable(s', j) { OwedAppend(s.trace, o, j); assert Recoverable(s, j); }
    } else {
      forall j ensures Recoverable(s', j) { assert Recoverable(s, j); }
    }
  }

  lemma SweepRows(cfg: Config, s: State, k: IdemKey)
    requires KeysInv(s) && CanSweepKey(cfg, s, k)
    ensures KeysInv(s.(keys := s.keys - {k}, trace := SweptTrace(s, k)))
  {
    var s' := s.(keys := s.keys - {k}, trace := SweptTrace(s, k));
    forall j | j in s'.keys ensures RowInv(s', j) {
      assert RowInv(s, j);
      if s.keys[j].result.Some? && s.keys[j].result.value.body.Some? && s.keys[j].result.value.status == 201 {
        BackedGrows(s.trace, s'.trace, 0, Some(j), s.keys[j].result.value.body.value.plain);
      }
    }
  }

  lemma SweepKeyKept(cfg: Config, s: State, k: IdemKey)
    requires Inv(cfg, s) && CanSweepKey(cfg, s, k)
    ensures Inv(cfg, s.(keys := s.keys - {k}, trace := SweptTrace(s, k)))
  {
    var s' := s.(keys := s.keys - {k}, trace := SweptTrace(s, k));
    BackgroundProcs(cfg, s, s');
    BackgroundGrants(s, s');
    SweepHistory(cfg, s, k);
    SweepRows(cfg, s, k);
  }
}
