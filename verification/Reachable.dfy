// The invariant over whole runs, and the theorems read off it.

module Reachable {
  import opened Prelude
  import opened Schema
  import opened Lifecycle
  import opened ControlPlane
  import opened Invariant
  import opened Preservation
  import opened Commits

  lemma InitialInv(cfg: Config)
    ensures Inv(cfg, INITIAL)
  {}

  lemma StartKept(cfg: Config, s: State, s': State, p: Pid)
    requires Inv(cfg, s) && Next(cfg, s, Start(p), s')
    ensures Inv(cfg, s')
  {
    assert ProcInv(cfg, s, p);
    StartOk(cfg, s, p);
    PutKept(cfg, s, s, p, At(s.procs[p], Handling));
  }

  lemma ReserveHitsKept(cfg: Config, s: State, s': State, p: Pid)
    requires Inv(cfg, s) && Next(cfg, s, ReserveHits(p), s')
    ensures Inv(cfg, s')
  {
    assert ProcInv(cfg, s, p);
    StartOk(cfg, s, p);
    PutKept(cfg, s, s, p, At(s.procs[p], Existing));
  }

  lemma ServeExistingKept(cfg: Config, s: State, s': State, p: Pid)
    requires Inv(cfg, s) && Next(cfg, s, ServeExisting(p), s')
    ensures Inv(cfg, s')
  {
    assert ProcInv(cfg, s, p);
    ServingExistingOk(cfg, s, p);
    PutKept(cfg, s, s, p, ServingExisting(s, s.procs[p]));
  }

  lemma BeginCreateKept(cfg: Config, s: State, s': State, p: Pid)
    requires Inv(cfg, s) && Next(cfg, s, BeginCreate(p), s')
    ensures Inv(cfg, s')
  {
    assert ProcInv(cfg, s, p);
    BeginCreateOk(cfg, s, p);
    PutKept(cfg, s, s, p, BeginningCreate(cfg, s, s.procs[p]));
  }

  lemma TakeQuotaLockKept(cfg: Config, s: State, s': State, p: Pid)
    requires Inv(cfg, s) && Next(cfg, s, TakeQuotaLock(p), s')
    ensures Inv(cfg, s')
  {
    assert ProcInv(cfg, s, p);
    QuotaLockOk(cfg, s, p);
    PutKept(cfg, s, s.(advisory := s.advisory[LockOf(cfg, s.procs[p].job.user) := p]), p, At(s.procs[p], Counting));
  }

  lemma CountTunnelsKept(cfg: Config, s: State, s': State, p: Pid)
    requires Inv(cfg, s) && Next(cfg, s, CountTunnels(p), s')
    ensures Inv(cfg, s')
  {
    assert ProcInv(cfg, s, p);
    CountTunnelsOk(cfg, s, p);
    PutKept(cfg, s, s, p, CountingTunnels(cfg, s, s.procs[p]));
  }

  lemma InsertTunnelKept(cfg: Config, s: State, s': State, p: Pid, id: TunnelId)
    requires Inv(cfg, s) && Next(cfg, s, InsertTunnel(p, id), s')
    ensures Inv(cfg, s')
  {
    assert ProcInv(cfg, s, p);
    InsertTunnelOk(cfg, s, p, id);
    PutKept(cfg, s, s.(rowLocks := s.rowLocks[id := p]), p, InsertingTunnel(cfg, s, s.procs[p], id));
  }

  lemma InsertConflictsKept(cfg: Config, s: State, s': State, p: Pid, id: TunnelId)
    requires Inv(cfg, s) && Next(cfg, s, InsertConflicts(p, id), s')
    ensures Inv(cfg, s')
  {
    assert ProcInv(cfg, s, p);
    TryAgainOk(cfg, s, p, id);
    PutKept(cfg, s, s, p, TryingAgain(s.procs[p]));
  }

  lemma StoreTokenKept(cfg: Config, s: State, s': State, p: Pid)
    requires Inv(cfg, s) && Next(cfg, s, StoreToken(p), s')
    ensures Inv(cfg, s')
  {
    assert ProcInv(cfg, s, p);
    StoreTokenOk(cfg, s, p);
    PutKept(cfg, s, s, p, StoringToken(s.procs[p]));
  }

  lemma LogEventKept(cfg: Config, s: State, s': State, p: Pid)
    requires Inv(cfg, s) && Next(cfg, s, LogEvent(p), s')
    ensures Inv(cfg, s')
  {
    assert ProcInv(cfg, s, p);
    LogEventOk(cfg, s, p);
    PutKept(cfg, s, s, p, LoggingEvent(s.procs[p]));
  }

  lemma CompleteKeyKept(cfg: Config, s: State, p: Pid)
    requires Inv(cfg, s) && CanCompleteKey(s, p)
    ensures Inv(cfg, Put(s.(keyLocks := s.keyLocks[s.procs[p].key.value := p]), p, CompletingKey(s.procs[p])))
  {
    assert ProcInv(cfg, s, p);
    CompleteKeyOk(cfg, s, p);
    PutKept(cfg, s, s.(keyLocks := s.keyLocks[s.procs[p].key.value := p]), p, CompletingKey(s.procs[p]));
  }

  lemma CompleteMissesKept(cfg: Config, s: State, s': State, p: Pid)
    requires Inv(cfg, s) && Next(cfg, s, CompleteMisses(p), s')
    ensures Inv(cfg, s')
  {
    assert ProcInv(cfg, s, p);
    RefuseOk(cfg, s, p, 500);
    PutKept(cfg, s, s, p, Refuse(s.procs[p], 500));
  }

  lemma BeginRevokeKept(cfg: Config, s: State, s': State, p: Pid)
    requires Inv(cfg, s) && Next(cfg, s, BeginRevoke(p), s')
    ensures Inv(cfg, s')
  {
    assert ProcInv(cfg, s, p);
    BeginRevokeOk(cfg, s, p);
    PutKept(cfg, s, s, p, BeginningRevoke(s, s.procs[p]));
  }

  lemma LookupTokenKept(cfg: Config, s: State, s': State, p: Pid, r: nat)
    requires Inv(cfg, s) && Next(cfg, s, LookupToken(p, r), s')
    ensures Inv(cfg, s')
  {
    assert ProcInv(cfg, s, p);
    LookupTokenOk(cfg, s, p, r);
    PutKept(cfg, s, s, p, LookingUpToken(s, s.procs[p], r));
  }

  lemma ReadStatusKept(cfg: Config, s: State, s': State, p: Pid)
    requires Inv(cfg, s) && Next(cfg, s, ReadStatus(p), s')
    ensures Inv(cfg, s')
  {
    assert ProcInv(cfg, s, p);
    ReadStatusOk(cfg, s, p);
    PutKept(cfg, s, s, p, ReadingStatus(s, s.procs[p]));
  }

  lemma LockRowKept(cfg: Config, s: State, p: Pid)
    requires Inv(cfg, s) && CanLockRow(s, p)
    ensures Inv(cfg, Put(s.(rowLocks := s.rowLocks[s.procs[p].pc.t := p]), p, TakingRow(s, s.procs[p])))
  {
    assert ProcInv(cfg, s, p);
    LockRowOk(cfg, s, p);
    PutKept(cfg, s, s.(rowLocks := s.rowLocks[s.procs[p].pc.t := p]), p, TakingRow(s, s.procs[p]));
  }

  lemma LockMissesKept(cfg: Config, s: State, s': State, p: Pid)
    requires Inv(cfg, s) && Next(cfg, s, LockMisses(p), s')
    ensures Inv(cfg, s')
  {
    assert ProcInv(cfg, s, p);
    RefuseOk(cfg, s, p, 404);
    PutKept(cfg, s, s, p, Refuse(s.procs[p], 404));
  }

  lemma CheckClockKept(cfg: Config, s: State, s': State, p: Pid)
    requires Inv(cfg, s) && Next(cfg, s, CheckClock(p), s')
    ensures Inv(cfg, s')
  {
    assert ProcInv(cfg, s, p);
    CheckClockOk(cfg, s, p);
    PutKept(cfg, s, s, p, CheckingClock(s, s.procs[p]));
  }

  lemma UpdateStatusSameRequest(s: State, p: Pid)
    requires CanUpdateStatus(s, p)
    ensures SameRequest(s.procs[p], UpdatingStatus(s, p, s.procs[p])) && Relocked(s, s, p)
  {}

  lemma UpdateStatusKept(cfg: Config, s: State, s': State, p: Pid)
    requires Inv(cfg, s) && Next(cfg, s, UpdateStatus(p), s')
    ensures Inv(cfg, s')
  {
    assert ProcInv(cfg, s, p);
    UpdateStatusOk(cfg, s, p);
    UpdateStatusSameRequest(s, p);
    PutKept(cfg, s, s, p, UpdatingStatus(s, p, s.procs[p]));
  }

  lemma RevokeTokensKept(cfg: Config, s: State, s': State, p: Pid)
    requires Inv(cfg, s) && Next(cfg, s, RevokeTokens(p), s')
    ensures Inv(cfg, s')
  {
    assert ProcInv(cfg, s, p);
    RevokeTokensOk(cfg, s, p);
    PutKept(cfg, s, s, p, RevokingTokens(s.procs[p]));
  }

  lemma BeginReapKept(cfg: Config, s: State, s': State, p: Pid)
    requires Inv(cfg, s) && Next(cfg, s, BeginReap(p), s')
    ensures Inv(cfg, s')
  {
    assert ProcInv(cfg, s, p);
    BeginReapOk(cfg, s, p);
    PutKept(cfg, s, s, p, At(Begun(s.procs[p], s.now, Reaping({}, {})), InTx));
  }

  lemma ReapRowKept(cfg: Config, s: State, s': State, p: Pid, t: TunnelId)
    requires Inv(cfg, s) && Next(cfg, s, ReapRow(p, t), s')
    ensures Inv(cfg, s')
  {
    assert ProcInv(cfg, s, p);
    ReapRowOk(cfg, s, p, t);
    PutKept(cfg, s, s.(rowLocks := s.rowLocks[t := p]), p, ReapingRow(s.procs[p], t));
  }

  lemma LogExpiryKept(cfg: Config, s: State, s': State, p: Pid, t: TunnelId)
    requires Inv(cfg, s) && Next(cfg, s, LogExpiry(p, t), s')
    ensures Inv(cfg, s')
  {
    assert ProcInv(cfg, s, p);
    LogExpiryOk(cfg, s, p, t);
    PutKept(cfg, s, s, p, LoggingExpiry(s.procs[p], t));
  }

  lemma SendCommitKept(cfg: Config, s: State, s': State, p: Pid)
    requires Inv(cfg, s) && Next(cfg, s, SendCommit(p), s')
    ensures Inv(cfg, s')
  {
    assert ProcInv(cfg, s, p);
    SendCommitOk(cfg, s, p);
    PutKept(cfg, s, s, p, SendingCommit(s.procs[p]));
  }

  lemma AbortTxKept(cfg: Config, s: State, s': State, p: Pid)
    requires Inv(cfg, s) && Next(cfg, s, AbortTx(p), s')
    ensures Inv(cfg, s')
  {
    assert ProcInv(cfg, s, p);
    AbortTxOk(cfg, s, p);
    PutKept(cfg, s, Unlocked(s, p), p, Ended(s.procs[p], Aborted));
  }

  lemma AckCommitKept(cfg: Config, s: State, s': State, p: Pid)
    requires Inv(cfg, s) && Next(cfg, s, AckCommit(p), s')
    ensures Inv(cfg, s')
  {
    assert ProcInv(cfg, s, p);
    AckCommitOk(cfg, s, p);
    PutKept(cfg, s, s, p, AckingCommit(s.procs[p]));
  }

  lemma FailKept(cfg: Config, s: State, s': State, p: Pid, status: int)
    requires Inv(cfg, s) && Next(cfg, s, Fail(p, status), s')
    ensures Inv(cfg, s')
  {
    assert ProcInv(cfg, s, p);
    RefuseOk(cfg, s, p, status);
    PutKept(cfg, s, s, p, Refuse(s.procs[p], status));
  }

  lemma PanicKept(cfg: Config, s: State, s': State, p: Pid)
    requires Inv(cfg, s) && Next(cfg, s, Panic(p), s')
    ensures Inv(cfg, s')
  {
    assert ProcInv(cfg, s, p);
    LeftOk(cfg, s, p, Panicked);
    PutKept(cfg, s, s, p, At(s.procs[p], Panicked));
  }

  lemma LeaveKept(cfg: Config, s: State, s': State, p: Pid)
    requires Inv(cfg, s) && Next(cfg, s, Leave(p), s')
    ensures Inv(cfg, s')
  {
    assert ProcInv(cfg, s, p);
    LeaveOk(cfg, s, p);
    PutKept(cfg, s, s, p, Leaving(s.procs[p]));
  }

  lemma ClockKept(cfg: Config, s: State, step: Step, s': State)
    requires step.Tick? || step.Arrive?
    requires Inv(cfg, s) && Next(cfg, s, step, s')
    ensures Inv(cfg, s')
  {
    match step
    case Tick(elapsed) => TickKept(cfg, s, elapsed);
    case Arrive(p, job, key, hash) => ArriveKept(cfg, s, p, job, key, hash);
    case _ =>
  }

  lemma SweepKept(cfg: Config, s: State, step: Step, s': State)
    requires step.SweepKey? || step.SweepToken?
    requires Inv(cfg, s) && Next(cfg, s, step, s')
    ensures Inv(cfg, s')
  {
    match step
    case SweepKey(k) => SweepKeyKept(cfg, s, k);
    case SweepToken(r) => SweepTokenKept(cfg, s, r);
    case _ =>
  }

  lemma MiddlewareKept(cfg: Config, s: State, step: Step, s': State)
    requires step.Start? || step.ReserveHits? || step.ServeExisting?
    requires Inv(cfg, s) && Next(cfg, s, step, s')
    ensures Inv(cfg, s')
  {
    match step
    case Start(p) => StartKept(cfg, s, s', p);
    case ReserveHits(p) => ReserveHitsKept(cfg, s, s', p);
    case ServeExisting(p) => ServeExistingKept(cfg, s, s', p);
    case _ =>
  }

  lemma BookkeepingKept(cfg: Config, s: State, step: Step, s': State)
    requires step.Reserve? || step.Persist? || step.ReleaseAfterPanic?
    requires Inv(cfg, s) && Next(cfg, s, step, s')
    ensures Inv(cfg, s')
  {
    match step
    case Reserve(p, ack) => ReserveKept(cfg, s, p, ack);
    case Persist(p, cacheable) => PersistKept(cfg, s, p, cacheable);
    case ReleaseAfterPanic(p) => ReleaseKept(cfg, s, p);
    case _ =>
  }

  lemma CreateKept(cfg: Config, s: State, step: Step, s': State)
    requires step.BeginCreate? || step.TakeQuotaLock? || step.CountTunnels? || step.InsertTunnel? ||
             step.InsertConflicts? || step.StoreToken?
    requires Inv(cfg, s) && Next(cfg, s, step, s')
    ensures Inv(cfg, s')
  {
    match step
    case BeginCreate(p) => BeginCreateKept(cfg, s, s', p);
    case TakeQuotaLock(p) => TakeQuotaLockKept(cfg, s, s', p);
    case CountTunnels(p) => CountTunnelsKept(cfg, s, s', p);
    case InsertTunnel(p, id) => InsertTunnelKept(cfg, s, s', p, id);
    case InsertConflicts(p, id) => InsertConflictsKept(cfg, s, s', p, id);
    case StoreToken(p) => StoreTokenKept(cfg, s, s', p);
    case _ =>
  }

  lemma CompletionKept(cfg: Config, s: State, step: Step, s': State)
    requires step.LogEvent? || step.CompleteKey? || step.CompleteMisses?
    requires Inv(cfg, s) && Next(cfg, s, step, s')
    ensures Inv(cfg, s')
  {
    match step
    case LogEvent(p) => LogEventKept(cfg, s, s', p);
    case CompleteKey(p) => CompleteKeyKept(cfg, s, p);
    case CompleteMisses(p) => CompleteMissesKept(cfg, s, s', p);
    case _ =>
  }

  lemma CallbackKept(cfg: Config, s: State, step: Step, s': State)
    requires step.BeginRevoke? || step.LookupToken? || step.ReadStatus? || step.LockRow? || step.LockMisses?
    requires Inv(cfg, s) && Next(cfg, s, step, s')
    ensures Inv(cfg, s')
  {
    match step
    case BeginRevoke(p) => BeginRevokeKept(cfg, s, s', p);
    case LookupToken(p, r) => LookupTokenKept(cfg, s, s', p, r);
    case ReadStatus(p) => ReadStatusKept(cfg, s, s', p);
    case LockRow(p) => LockRowKept(cfg, s, p);
    case LockMisses(p) => LockMissesKept(cfg, s, s', p);
    case _ =>
  }

  lemma TransitionKept(cfg: Config, s: State, step: Step, s': State)
    requires step.CheckClock? || step.UpdateStatus? || step.RevokeTokens? || step.BeginReap? ||
             step.ReapRow? || step.LogExpiry?
    requires Inv(cfg, s) && Next(cfg, s, step, s')
    ensures Inv(cfg, s')
  {
    match step
    case CheckClock(p) => CheckClockKept(cfg, s, s', p);
    case UpdateStatus(p) => UpdateStatusKept(cfg, s, s', p);
    case RevokeTokens(p) => RevokeTokensKept(cfg, s, s', p);
    case BeginReap(p) => BeginReapKept(cfg, s, s', p);
    case ReapRow(p, t) => ReapRowKept(cfg, s, s', p, t);
    case LogExpiry(p, t) => LogExpiryKept(cfg, s, s', p, t);
    case _ =>
  }

  lemma OutcomeKept(cfg: Config, s: State, step: Step, s': State)
    requires step.SendCommit? || step.CommitTx? || step.AbortTx? || step.AckCommit?
    requires Inv(cfg, s) && Next(cfg, s, step, s')
    ensures Inv(cfg, s')
  {
    match step
    case CommitTx(p) => CommitKept(cfg, s, p);
    case SendCommit(p) => SendCommitKept(cfg, s, s', p);
    case AbortTx(p) => AbortTxKept(cfg, s, s', p);
    case AckCommit(p) => AckCommitKept(cfg, s, s', p);
    case _ =>
  }

  lemma FailureKept(cfg: Config, s: State, step: Step, s': State)
    requires step.Fail? || step.Panic? || step.Leave?
    requires Inv(cfg, s) && Next(cfg, s, step, s')
    ensures Inv(cfg, s')
  {
    match step
    case Fail(p, status) => FailKept(cfg, s, s', p, status);
    case Panic(p) => PanicKept(cfg, s, s', p);
    case Leave(p) => LeaveKept(cfg, s, s', p);
    case _ =>
  }

  /** Every step keeps the invariant. */
  lemma NextKept(cfg: Config, s: State, step: Step, s': State)
    requires Inv(cfg, s) && Next(cfg, s, step, s')
    ensures Inv(cfg, s')
  {
    if step.Tick? || step.Arrive? {
      ClockKept(cfg, s, step, s');
    } else if step.SweepKey? || step.SweepToken? {
      SweepKept(cfg, s, step, s');
    } else if step.Start? || step.ReserveHits? || step.ServeExisting? {
      MiddlewareKept(cfg, s, step, s');
    } else if step.Reserve? || step.Persist? || step.ReleaseAfterPanic? {
      BookkeepingKept(cfg, s, step, s');
    } else if step.BeginCreate? || step.TakeQuotaLock? || step.CountTunnels? || step.InsertTunnel?
              || step.InsertConflicts? || step.StoreToken? {
      CreateKept(cfg, s, step, s');
    } else if step.LogEvent? || step.CompleteKey? || step.CompleteMisses? {
      CompletionKept(cfg, s, step, s');
    } else if step.BeginRevoke? || step.LookupToken? || step.ReadStatus? || step.LockRow? || step.LockMisses? {
      CallbackKept(cfg, s, step, s');
    } else if step.CheckClock? || step.UpdateStatus? || step.RevokeTokens? || step.BeginReap? || step.ReapRow?
              || step.LogExpiry? {
      TransitionKept(cfg, s, step, s');
    } else if step.SendCommit? || step.CommitTx? || step.AbortTx? || step.AckCommit? {
      OutcomeKept(cfg, s, step, s');
    } else {
      FailureKept(cfg, s, step, s');
    }
  }

  lemma {:induction false} RunInv(cfg: Config, run: seq<State>, i: nat)
    requires Run(cfg, run) && i < |run|
    ensures Inv(cfg, run[i])
  {
    if i == 0 {
      InitialInv(cfg);
    } else {
      RunInv(cfg, run, i - 1);
      assert StepAt(cfg, run, i);
      var step :| Next(cfg, run[i - 1], step, run[i]);
      NextKept(cfg, run[i - 1], step, run[i]);
    }
  }

  /** The step that leads to state n of a run. */
  lemma StepTo(cfg: Config, run: seq<State>, n: nat) returns (step: Step)
    requires Run(cfg, run) && 0 < n < |run|
    ensures Inv(cfg, run[n - 1]) && Next(cfg, run[n - 1], step, run[n])
  {
    RunInv(cfg, run, n - 1);
    assert StepAt(cfg, run, n);
    step :| Next(cfg, run[n - 1], step, run[n]);
  }
}
