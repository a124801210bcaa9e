// Liveness of the lock protocol: nobody is stuck except behind a lock, and every chain of locks ends at
// a process that can move.

module Progress {
  import opened Prelude
  import opened Schema
  import opened Lifecycle
  import opened ControlPlane
  import opened Invariant
  import opened Reachable
  import opened Steps

  // ----- who holds which lock -----

  predicate Covers(e: Effect, t: TunnelId) {
    match e
    case Idle => false
    case Creating(id, _, _, _, _) => id == t
    case Moving(row, _, _, _, _, _) => row == t
    case Reaping(rows, _) => t in rows
  }

  predicate Completed(e: Effect) {
    e.Creating? && e.complete.Some?
  }

  ghost predicate HoldsLive(s: State, p: Pid) {
    p in s.procs && Live(s.procs[p].tx)
  }

  /** Every lock belongs to an undecided transaction that has a use for it. */
  ghost predicate LocksExact(cfg: Config, s: State) {
    && (forall t :: t in s.rowLocks ==> HoldsLive(s, s.rowLocks[t]) && Covers(s.procs[s.rowLocks[t]].tx.effect, t))
    && (forall k :: k in s.keyLocks ==>
          && HoldsLive(s, s.keyLocks[k])
          && Completed(s.procs[s.keyLocks[k]].tx.effect) && s.procs[s.keyLocks[k]].key == Some(k))
    && (forall a :: a in s.advisory ==>
          && HoldsLive(s, s.advisory[a]) && s.procs[s.advisory[a]].job.CreateJob?
          && LockOf(cfg, s.procs[s.advisory[a]].job.user) == a && !s.procs[s.advisory[a]].pc.QuotaLock?)
  }

  /** Program counter, transaction phase and lifetime fit together. */
  predicate PhaseOk(cfg: Config, pr: Proc) {
    && (pr.pc.QuotaLock? || pr.pc.Counting? || pr.pc.Inserting?
        || pr.pc.LockingRow? || pr.pc.RowLocked? || pr.pc.InTx? ==>
          pr.tx.phase.Open? || pr.tx.phase.Aborted?)
    && (pr.pc.AwaitingCommit? ==> !pr.tx.phase.Outside? && !pr.tx.phase.Open?)
    && (pr.pc.QuotaLock? || pr.pc.Counting? || pr.pc.Inserting? ==>
          pr.job.CreateJob? && ResolveTtl(cfg, pr.job.ttlSeconds).Some?)
  }

  ghost predicate PhasesOk(cfg: Config, s: State) {
    forall p :: p in s.procs ==> PhaseOk(cfg, s.procs[p])
  }

  /** A live transaction keeps what its locks are for. */
  ghost predicate KeepsCover(pr: Proc, pr': Proc) {
    Live(pr.tx) ==>
      && Live(pr'.tx) && pr'.job == pr.job && pr'.key == pr.key
      && (forall t :: Covers(pr.tx.effect, t) ==> Covers(pr'.tx.effect, t))
      && (Completed(pr.tx.effect) ==> Completed(pr'.tx.effect))
      && (!pr.pc.QuotaLock? ==> !pr'.pc.QuotaLock?)
  }

  /** The actor's part of a step that takes and frees no lock. */
  ghost predicate Tidy(cfg: Config, s: State, p: Pid, s': State) {
    && p in s.procs && p in s'.procs && s'.procs == s.procs[p := s'.procs[p]]
    && s'.rowLocks == s.rowLocks && s'.keyLocks == s.keyLocks && s'.advisory == s.advisory
    && KeepsCover(s.procs[p], s'.procs[p])
    && (PhaseOk(cfg, s.procs[p]) ==> PhaseOk(cfg, s'.procs[p]))
  }

  lemma EntryTidy(cfg: Config, s: State, step: Step, s': State)
    requires step.Start? || step.Reserve? || step.ReserveHits? || step.ServeExisting?
    requires Next(cfg, s, step, s')
    ensures Tidy(cfg, s, step.p, s')
  {}

  lemma BookkeepingTidy(cfg: Config, s: State, step: Step, s': State)
    requires step.Persist? || step.ReleaseAfterPanic?
    requires Next(cfg, s, step, s')
    ensures Tidy(cfg, s, step.p, s')
  {}

  lemma CreateTidy(cfg: Config, s: State, step: Step, s': State)
    requires step.BeginCreate? || step.CountTunnels? || step.InsertConflicts?
    requires Next(cfg, s, step, s')
    ensures Tidy(cfg, s, step.p, s')
  {}

  lemma WriteTidy(cfg: Config, s: State, step: Step, s': State)
    requires step.StoreToken? || step.LogEvent? || step.CompleteMisses?
    requires Next(cfg, s, step, s')
    ensures Tidy(cfg, s, step.p, s')
  {}

  lemma CallbackTidy(cfg: Config, s: State, step: Step, s': State)
    requires step.BeginRevoke? || step.LookupToken? || step.ReadStatus? || step.LockMisses?
    requires Next(cfg, s, step, s')
    ensures Tidy(cfg, s, step.p, s')
  {}

  lemma TransitionTidy(cfg: Config, s: State, step: Step, s': State)
    requires step.CheckClock? || step.UpdateStatus? || step.RevokeTokens?
    requires Next(cfg, s, step, s')
    ensures Tidy(cfg, s, step.p, s')
  {}

  lemma ReapTidy(cfg: Config, s: State, step: Step, s': State)
    requires step.BeginReap? || step.LogExpiry? || step.SendCommit? || step.AckCommit?
    requires Next(cfg, s, step, s')
    ensures Tidy(cfg, s, step.p, s')
  {}

  lemma FailureTidy(cfg: Config, s: State, step: Step, s': State)
    requires step.Fail? || step.Panic? || step.Leave?
    requires Next(cfg, s, step, s')
    ensures Tidy(cfg, s, step.p, s')
  {}

  predicate TakesLock(step: Step) {
    step.TakeQuotaLock? || step.InsertTunnel? || step.CompleteKey? || step.LockRow? || step.ReapRow?
  }

  predicate Decides(step: Step) {
    step.CommitTx? || step.AbortTx?
  }

  predicate Background(step: Step) {
    step.Tick? || step.Arrive? || step.SweepKey? || step.SweepToken?
  }

  lemma StepTidy(cfg: Config, s: State, step: Step, s': State)
    requires !TakesLock(step) && !Decides(step) && !Background(step)
    requires Next(cfg, s, step, s')
    ensures Tidy(cfg, s, step.p, s')
  {
    if step.Start? || step.Reserve? || step.ReserveHits? || step.ServeExisting? {
      EntryTidy(cfg, s, step, s');
    } else if step.Persist? || step.ReleaseAfterPanic? {
      BookkeepingTidy(cfg, s, step, s');
    } else if step.BeginCreate? || step.CountTunnels? || step.InsertConflicts? {
      CreateTidy(cfg, s, step, s');
    } else if step.StoreToken? || step.LogEvent? || step.CompleteMisses? {
      WriteTidy(cfg, s, step, s');
    } else if step.BeginRevoke? || step.LookupToken? || step.ReadStatus? || step.LockMisses? {
      CallbackTidy(cfg, s, step, s');
    } else if step.CheckClock? || step.UpdateStatus? || step.RevokeTokens? {
      TransitionTidy(cfg, s, step, s');
    } else if step.BeginReap? || step.LogExpiry? || step.SendCommit? || step.AckCommit? {
      ReapTidy(cfg, s, step, s');
    } else {
      FailureTidy(cfg, s, step, s');
    }
  }

  lemma TidyKept(cfg: Config, s: State, p: Pid, s': State)
    requires LocksExact(cfg, s) && PhasesOk(cfg, s) && Tidy(cfg, s, p, s')
    ensures LocksExact(cfg, s') && PhasesOk(cfg, s')
  {}

  /** Steps of no process: the clock, an arrival, the sweepers. */
  ghost predicate Apart(s: State, s': State) {
    && s'.rowLocks == s.rowLocks && s'.keyLocks == s.keyLocks && s'.advisory == s.advisory
    && (forall q :: q in s.procs ==> q in s'.procs && s'.procs[q] == s.procs[q])
    && (forall q :: q in s'.procs && q !in s.procs ==> s'.procs[q].pc.Arrived?)
  }

  lemma BackgroundApart(cfg: Config, s: State, step: Step, s': State)
    requires Background(step) && Next(cfg, s, step, s')
    ensures Apart(s, s')
  {}

  lemma ApartKept(cfg: Config, s: State, s': State)
    requires LocksExact(cfg, s) && PhasesOk(cfg, s) && Apart(s, s')
    ensures LocksExact(cfg, s') && PhasesOk(cfg, s')
  {}

  /** A decision frees exactly its process's locks. */
  ghost predicate Decided(s: State, p: Pid, s': State) {
    && p in s.procs && s'.rowLocks == Kept(s.rowLocks, p) && s'.keyLocks == Kept(s.keyLocks, p)
    && s'.advisory == Kept(s.advisory, p)
    && Live(s.procs[p].tx)
    && (s'.procs == s.procs[p := Ended(s.procs[p], Aborted)]
        || (s.procs[p].tx.phase.Committing? && s'.procs == s.procs[p := Ended(s.procs[p], Committed)]))
  }

  lemma DecisionFrees(cfg: Config, s: State, step: Step, s': State)
    requires Decides(step) && Next(cfg, s, step, s')
    ensures Decided(s, step.p, s')
  {}

  lemma DecisionKept(cfg: Config, s: State, p: Pid, s': State)
    requires LocksExact(cfg, s) && PhasesOk(cfg, s) && Decided(s, p, s')
    ensures LocksExact(cfg, s') && PhasesOk(cfg, s')
  {}

  lemma QuotaLockKept(cfg: Config, s: State, step: Step, s': State)
    requires LocksExact(cfg, s) && PhasesOk(cfg, s) && step.TakeQuotaLock? && Next(cfg, s, step, s')
    ensures LocksExact(cfg, s') && PhasesOk(cfg, s')
  {}

  /** A step that takes the free row t for a transaction that now has a use for it. */
  ghost predicate RowTaken(cfg: Config, s: State, p: Pid, t: TunnelId, s': State) {
    && p in s.procs && p in s'.procs && s'.procs == s.procs[p := s'.procs[p]]
    && s'.rowLocks == s.rowLocks[t := p] && s'.keyLocks == s.keyLocks && s'.advisory == s.advisory
    && KeepsCover(s.procs[p], s'.procs[p]) && PhaseOk(cfg, s'.procs[p])
    && Live(s'.procs[p].tx) && Covers(s'.procs[p].tx.effect, t)
  }

  lemma RowTakenKept(cfg: Config, s: State, p: Pid, t: TunnelId, s': State)
    requires LocksExact(cfg, s) && PhasesOk(cfg, s) && RowTaken(cfg, s, p, t, s')
    ensures LocksExact(cfg, s') && PhasesOk(cfg, s')
  {}

  lemma InsertTakes(cfg: Config, s: State, step: Step, s': State)
    requires step.InsertTunnel? && ProcInv(cfg, s, step.p) && PhaseOk(cfg, s.procs[step.p]) && Next(cfg, s, step, s')
    ensures RowTaken(cfg, s, step.p, step.id, s')
  {
    assert s.procs[step.p].tx.effect.Idle?;
  }

  lemma LockRowTakes(cfg: Config, s: State, step: Step, s': State)
    requires step.LockRow? && ProcInv(cfg, s, step.p) && PhaseOk(cfg, s.procs[step.p]) && Next(cfg, s, step, s')
    ensures RowTaken(cfg, s, step.p, s.procs[step.p].pc.t, s')
  {
    assert s.procs[step.p].tx.effect.Idle?;
  }

  lemma ReapRowTakes(cfg: Config, s: State, step: Step, s': State)
    requires step.ReapRow? && step.p in s.procs && PhaseOk(cfg, s.procs[step.p]) && Next(cfg, s, step, s')
    ensures RowTaken(cfg, s, step.p, step.t, s')
  {}

  lemma CompleteKept(cfg: Config, s: State, step: Step, s': State)
    requires LocksExact(cfg, s) && PhasesOk(cfg, s) && step.CompleteKey? && Next(cfg, s, step, s')
    ensures LocksExact(cfg, s') && PhasesOk(cfg, s')
  {}

  lemma TakingKept(cfg: Config, s: State, step: Step, s': State)
    requires LocksExact(cfg, s) && PhasesOk(cfg, s)
    requires TakesLock(step) && ProcInv(cfg, s, step.p) && Next(cfg, s, step, s')
    ensures LocksExact(cfg, s') && PhasesOk(cfg, s')
  {
    if step.TakeQuotaLock? {
      QuotaLockKept(cfg, s, step, s');
    } else if step.InsertTunnel? {
      InsertTakes(cfg, s, step, s');
      RowTakenKept(cfg, s, step.p, step.id, s');
    } else if step.CompleteKey? {
      CompleteKept(cfg, s, step, s');
    } else if step.LockRow? {
      LockRowTakes(cfg, s, step, s');
      RowTakenKept(cfg, s, step.p, s.procs[step.p].pc.t, s');
    } else {
      ReapRowTakes(cfg, s, step, s');
      RowTakenKept(cfg, s, step.p, step.t, s');
    }
  }

  lemma TakerKnown(cfg: Config, s: State, step: Step, s': State)
    requires TakesLock(step) && Next(cfg, s, step, s')
    ensures step.p in s.procs
  {}

  lemma StepLocks(cfg: Config, s: State, step: Step, s': State)
    requires LocksExact(cfg, s) && PhasesOk(cfg, s) && ProcsInv(cfg, s) && Next(cfg, s, step, s')
    ensures LocksExact(cfg, s') && PhasesOk(cfg, s')
  {
    if Background(step) {
      BackgroundApart(cfg, s, step, s');
      ApartKept(cfg, s, s');
    } else if Decides(step) {
      DecisionFrees(cfg, s, step, s');
      DecisionKept(cfg, s, step.p, s');
    } else if TakesLock(step) {
      TakerKnown(cfg, s, step, s');
      TakingKept(cfg, s, step, s');
    } else {
      StepTidy(cfg, s, step, s');
      TidyKept(cfg, s, step.p, s');
    }
  }

  lemma {:induction false} RunLocks(cfg: Config, run: seq<State>, n: nat)
    requires Run(cfg, run) && n < |run|
    ensures LocksExact(cfg, run[n]) && PhasesOk(cfg, run[n])
  {
    if n > 0 {
      RunLocks(cfg, run, n - 1);
      var step := StepTo(cfg, run, n);
      StepLocks(cfg, run[n - 1], step, run[n]);
    }
  }

  // ----- nobody is stuck except behind a lock -----

  /** A step by which process p gets on: not a failure, a crash or a rollback. */
  predicate Proceeds(step: Step, p: Pid) {
    && Acts(step, p) && (step.Reserve? ==> step.ack)
    && !step.Arrive? && !step.Fail? && !step.Panic? && !step.Leave? && !step.AbortTx? && !step.InsertConflicts?
  }

  ghost predicate CanProceed(cfg: Config, s: State, p: Pid) {
    exists step, s' :: Proceeds(step, p) && Next(cfg, s, step, s')
  }

  /** The holder of the lock that process p's next statement has to wait for. */
  predicate WaitsFor(cfg: Config, s: State, p: Pid, q: Pid) {
    && p in s.procs
    && var pr := s.procs[p];
    match pr.pc
    case QuotaLock =>
      && pr.tx.phase.Open? && pr.job.CreateJob?
      && LockOf(cfg, pr.job.user) in s.advisory && s.advisory[LockOf(cfg, pr.job.user)] == q
    case LockingRow(t, _, _) => pr.tx.phase.Open? && t in s.rowLocks && s.rowLocks[t] == q
    case InTx => ReadyToComplete(s, p) && pr.key.value in s.keyLocks && s.keyLocks[pr.key.value] == q
    case Responded(_) => pr.holds && pr.key.Some? && pr.key.value in s.keyLocks && s.keyLocks[pr.key.value] == q
    case Panicked => pr.holds && pr.key.Some? && pr.key.value in s.keyLocks && s.keyLocks[pr.key.value] == q
    case _ => false
  }

  /** Nothing is left to do: answered, and no reservation to finish. */
  predicate Finished(pr: Proc) {
    pr.pc.Gone? || ((pr.pc.Responded? || pr.pc.Panicked?) && !pr.holds)
  }

  /** The database ended the transaction under a handler, whose next statement will fail. */
  predicate LostTransaction(pr: Proc) {
    InHandler(pr.pc) && pr.tx.phase.Aborted?
  }

  /** A NewProxy callback presents a secret no live credential has, and is refused. */
  predicate Unknown(s: State, pr: Proc) {
    pr.pc.Handling? && pr.job.NewProxyJob? && forall r :: r in s.tokens ==> !Accepted(s, r, pr.job.secret)
  }

  ghost predicate Waiting(cfg: Config, s: State, p: Pid) {
    exists q :: WaitsFor(cfg, s, p, q)
  }

  ghost predicate Settled(cfg: Config, s: State, p: Pid)
    requires p in s.procs
  {
    || Finished(s.procs[p]) || LostTransaction(s.procs[p]) || Unknown(s, s.procs[p])
    || Waiting(cfg, s, p) || CanProceed(cfg, s, p)
  }

  lemma Go(cfg: Config, s: State, p: Pid, step: Step, s': State)
    requires Proceeds(step, p) && Next(cfg, s, step, s')
    ensures CanProceed(cfg, s, p)
  {}

  lemma EntrySettled(cfg: Config, s: State, p: Pid)
    requires ProcInv(cfg, s, p) && (s.procs[p].pc.Arrived? || s.procs[p].pc.Existing?)
    ensures CanProceed(cfg, s, p)
  {
    var pr := s.procs[p];
    if pr.pc.Existing? {
      Go(cfg, s, p, ServeExisting(p), Put(s, p, ServingExisting(s, pr)));
    } else if pr.key.None? {
      Go(cfg, s, p, Start(p), Put(s, p, At(pr, Handling)));
    } else if pr.key.value in s.keys {
      Go(cfg, s, p, ReserveHits(p), Put(s, p, At(pr, Existing)));
    } else {
      Go(cfg, s, p, Reserve(p, true), Put(s.(keys := WithReservation(s, p)), p, Reserving(s, pr, true)));
    }
  }

  lemma LookupSettled(cfg: Config, s: State, p: Pid)
    requires AtHandler(s, p) && s.procs[p].job.NewProxyJob?
    ensures Unknown(s, s.procs[p]) || CanProceed(cfg, s, p)
  {
    if r :| r in s.tokens && Accepted(s, r, s.procs[p].job.secret) {
      Go(cfg, s, p, LookupToken(p, r), Put(s, p, LookingUpToken(s, s.procs[p], r)));
    }
  }

  lemma HandlingSettled(cfg: Config, s: State, p: Pid)
    requires AtHandler(s, p)
    ensures Unknown(s, s.procs[p]) || CanProceed(cfg, s, p)
  {
    var pr := s.procs[p];
    match pr.job
    case CreateJob(_, _, _) => Go(cfg, s, p, BeginCreate(p), Put(s, p, BeginningCreate(cfg, s, pr)));
    case RevokeJob(_, _) => Go(cfg, s, p, BeginRevoke(p), Put(s, p, BeginningRevoke(s, pr)));
    case NewProxyJob(_, _, _) => LookupSettled(cfg, s, p);
    case CloseProxyJob(_) => Go(cfg, s, p, ReadStatus(p), Put(s, p, ReadingStatus(s, pr)));
    case ReapJob => Go(cfg, s, p, BeginReap(p), Put(s, p, At(Begun(pr, s.now, Reaping({}, {})), InTx)));
  }

  /** IDs never run out. */
  lemma FreshId(taken: set<TunnelId>) returns (id: TunnelId)
    ensures id !in taken
  {
    var name, seen: set<TunnelId> := "", {};
    while TunnelId(name) in taken
      invariant seen <= taken && |seen| == |name|
      invariant forall i :: i in seen ==> |i.name| < |name|
      decreases |taken| - |seen|
    {
      SubsetSize(seen + {TunnelId(name)}, taken);
      seen := seen + {TunnelId(name)};
      name := name + "a";
    }
    id := TunnelId(name);
  }

  lemma CreationSettled(cfg: Config, s: State, p: Pid)
    requires ProcInv(cfg, s, p) && PhaseOk(cfg, s.procs[p]) && s.procs[p].tx.phase.Open?
    requires s.procs[p].pc.QuotaLock? || s.procs[p].pc.Counting? || s.procs[p].pc.Inserting?
    ensures Waiting(cfg, s, p) || CanProceed(cfg, s, p)
  {
    var pr := s.procs[p];
    match pr.pc
    case QuotaLock =>
      var a := LockOf(cfg, pr.job.user);
      if a in s.advisory {
        assert WaitsFor(cfg, s, p, s.advisory[a]);
      } else {
        Go(cfg, s, p, TakeQuotaLock(p), Put(s.(advisory := s.advisory[a := p]), p, At(pr, Counting)));
      }
    case Counting => Go(cfg, s, p, CountTunnels(p), Put(s, p, CountingTunnels(cfg, s, pr)));
    case Inserting(_, _) =>
      var id := FreshId(s.tunnels.Keys + s.rowLocks.Keys);
      Go(cfg, s, p, InsertTunnel(p, id), Put(s.(rowLocks := s.rowLocks[id := p]), p, InsertingTunnel(cfg, s, pr, id)));
    case _ =>
  }

  lemma LockingSettled(cfg: Config, s: State, p: Pid)
    requires p in s.procs && s.procs[p].tx.phase.Open? && s.procs[p].pc.LockingRow?
    ensures Waiting(cfg, s, p) || CanProceed(cfg, s, p)
  {
    var pr := s.procs[p];
    var t := pr.pc.t;
    if t in s.rowLocks {
      assert WaitsFor(cfg, s, p, s.rowLocks[t]);
    } else if Selects(s, pr) {
      Go(cfg, s, p, LockRow(p), Put(s.(rowLocks := s.rowLocks[t := p]), p, TakingRow(s, pr)));
    } else {
      Go(cfg, s, p, LockMisses(p), Put(s, p, Refuse(pr, 404)));
    }
  }

  lemma RowSettled(cfg: Config, s: State, p: Pid)
    requires ProcInv(cfg, s, p) && s.procs[p].tx.phase.Open? && s.procs[p].pc.RowLocked?
    ensures CanProceed(cfg, s, p)
  {
    var pr := s.procs[p];
    assert PcInv(cfg, s, p, pr);
    if CanCheckClock(s, p) {
      Go(cfg, s, p, CheckClock(p), Put(s, p, CheckingClock(s, pr)));
    } else {
      assert CanUpdateStatus(s, p);
      Go(cfg, s, p, UpdateStatus(p), Put(s, p, UpdatingStatus(s, p, pr)));
    }
  }

  lemma CreatingSettled(cfg: Config, s: State, p: Pid)
    requires ProcInv(cfg, s, p) && s.procs[p].tx.phase.Open? && s.procs[p].pc.InTx? && s.procs[p].tx.effect.Creating?
    ensures Waiting(cfg, s, p) || CanProceed(cfg, s, p)
  {
    var pr := s.procs[p];
    var e := pr.tx.effect;
    assert CreatingInv(cfg, s, p, pr);
    if e.token.None? {
      Go(cfg, s, p, StoreToken(p), Put(s, p, StoringToken(pr)));
    } else if !e.announced {
      Go(cfg, s, p, LogEvent(p), Put(s, p, LoggingEvent(pr)));
    } else if pr.holds && e.complete.None? {
      CompletionSettled(cfg, s, p);
    } else {
      Go(cfg, s, p, SendCommit(p), Put(s, p, SendingCommit(pr)));
    }
  }

  lemma CompletionSettled(cfg: Config, s: State, p: Pid)
    requires ReadyToComplete(s, p)
    ensures Waiting(cfg, s, p) || CanProceed(cfg, s, p)
  {
    var pr := s.procs[p];
    var k := pr.key.value;
    if k in s.keyLocks {
      assert WaitsFor(cfg, s, p, s.keyLocks[k]);
    } else if InFlight(s, k) {
      Go(cfg, s, p, CompleteKey(p), Put(s.(keyLocks := s.keyLocks[k := p]), p, CompletingKey(pr)));
    } else {
      Go(cfg, s, p, CompleteMisses(p), Put(s, p, Refuse(pr, 500)));
    }
  }

  lemma MovingSettled(cfg: Config, s: State, p: Pid)
    requires p in s.procs && s.procs[p].tx.phase.Open? && s.procs[p].pc.InTx? && s.procs[p].tx.effect.Moving?
    ensures CanProceed(cfg, s, p)
  {
    var pr := s.procs[p];
    if CanLogEvent(s, p) {
      Go(cfg, s, p, LogEvent(p), Put(s, p, LoggingEvent(pr)));
    } else if CanRevokeTokens(s, p) && !pr.tx.effect.revoked {
      Go(cfg, s, p, RevokeTokens(p), Put(s, p, RevokingTokens(pr)));
    } else {
      Go(cfg, s, p, SendCommit(p), Put(s, p, SendingCommit(pr)));
    }
  }

  lemma ReapingSettled(cfg: Config, s: State, p: Pid)
    requires p in s.procs && s.procs[p].tx.phase.Open? && s.procs[p].pc.InTx? && s.procs[p].tx.effect.Reaping?
    requires s.procs[p].tx.effect.done <= s.procs[p].tx.effect.rows
    ensures CanProceed(cfg, s, p)
  {
    var pr := s.procs[p];
    if t :| t in pr.tx.effect.rows && t !in pr.tx.effect.done {
      Go(cfg, s, p, LogExpiry(p, t), Put(s, p, LoggingExpiry(pr, t)));
    } else {
      Go(cfg, s, p, SendCommit(p), Put(s, p, SendingCommit(pr)));
    }
  }

  lemma WritingSettled(cfg: Config, s: State, p: Pid)
    requires ProcInv(cfg, s, p) && s.procs[p].tx.phase.Open? && s.procs[p].pc.InTx?
    ensures Waiting(cfg, s, p) || CanProceed(cfg, s, p)
  {
    var pr := s.procs[p];
    match pr.tx.effect
    case Idle =>
    case Creating(_, _, _, _, _) => CreatingSettled(cfg, s, p);
    case Moving(_, _, _, _, _, _) => MovingSettled(cfg, s, p);
    case Reaping(_, _) =>
      assert ReapingInv(s, p, pr);
      ReapingSettled(cfg, s, p);
  }

  lemma CommitSettled(cfg: Config, s: State, p: Pid)
    requires p in s.procs
    requires s.procs[p].tx.phase.Committing? || (s.procs[p].pc.AwaitingCommit? && s.procs[p].tx.phase.Committed?)
    ensures CanProceed(cfg, s, p)
  {
    var pr := s.procs[p];
    if pr.tx.phase.Committing? {
      Go(cfg, s, p, CommitTx(p), Put(Unlocked(Installed(s, p, pr), p), p, Ended(pr, Committed)));
    } else {
      Go(cfg, s, p, AckCommit(p), Put(s, p, AckingCommit(pr)));
    }
  }

  lemma BookkeepingSettled(cfg: Config, s: State, p: Pid)
    requires ProcInv(cfg, s, p) && s.procs[p].holds && (s.procs[p].pc.Responded? || s.procs[p].pc.Panicked?)
    ensures Waiting(cfg, s, p) || CanProceed(cfg, s, p)
  {
    var pr := s.procs[p];
    var k := pr.key.value;
    if k in s.keyLocks {
      assert WaitsFor(cfg, s, p, s.keyLocks[k]);
    } else if pr.pc.Responded? {
      Go(cfg, s, p, Persist(p, true), Put(s.(keys := Persisted(s, pr, true)), p, Leaving(pr)));
    } else {
      Go(cfg, s, p, ReleaseAfterPanic(p), Put(s.(keys := Released(s.keys, k)), p, Leaving(pr)));
    }
  }

  lemma ProcSettled(cfg: Config, s: State, p: Pid)
    requires ProcInv(cfg, s, p) && PhaseOk(cfg, s.procs[p])
    ensures Settled(cfg, s, p)
  {
    var pr := s.procs[p];
    match pr.pc
    case Arrived => EntrySettled(cfg, s, p);
    case Existing => EntrySettled(cfg, s, p);
    case Handling => HandlingSettled(cfg, s, p);
    case QuotaLock => if pr.tx.phase.Open? { CreationSettled(cfg, s, p); }
    case Counting => if pr.tx.phase.Open? { CreationSettled(cfg, s, p); }
    case Inserting(_, _) => if pr.tx.phase.Open? { CreationSettled(cfg, s, p); }
    case LockingRow(_, _, _) => if pr.tx.phase.Open? { LockingSettled(cfg, s, p); }
    case RowLocked(_, _, _) => if pr.tx.phase.Open? { RowSettled(cfg, s, p); }
    case InTx => if pr.tx.phase.Open? { WritingSettled(cfg, s, p); }
    case AwaitingCommit(_) => if !pr.tx.phase.Aborted? { CommitSettled(cfg, s, p); }
    case Responded(_) => if pr.holds { BookkeepingSettled(cfg, s, p); }
    case Panicked => if pr.holds { BookkeepingSettled(cfg, s, p); }
    case Gone(_) =>
  }

  /** In every reachable state every process has finished, can take its next step, waits for a lock, has
      lost its transaction, or presented a credential nobody accepts. */
  lemma NeverStuck(cfg: Config, run: seq<State>, n: nat, p: Pid)
    requires Run(cfg, run) && n < |run| && p in run[n].procs
    ensures Settled(cfg, run[n], p)
  {
    RunInv(cfg, run, n);
    RunLocks(cfg, run, n);
    assert ProcInv(cfg, run[n], p);
    ProcSettled(cfg, run[n], p);
  }

  // ----- no deadlock -----

  /** The process can take its next step, or has left its handler and only its transaction is to be decided. */
  ghost predicate CanMove(cfg: Config, s: State, p: Pid) {
    CanProceed(cfg, s, p) || (HoldsLive(s, p) && !InHandler(s.procs[p].pc) && exists s' :: Next(cfg, s, AbortTx(p), s'))
  }

  lemma LeftCanMove(cfg: Config, s: State, q: Pid)
    requires HoldsLive(s, q) && !InHandler(s.procs[q].pc)
    ensures CanMove(cfg, s, q)
  {
    assert Next(cfg, s, AbortTx(q), Put(Unlocked(s, q), q, Ended(s.procs[q], Aborted)));
  }

  lemma WaitedFor(cfg: Config, s: State, p: Pid, q: Pid)
    requires LocksExact(cfg, s) && WaitsFor(cfg, s, p, q)
    ensures HoldsLive(s, q)
    ensures s.procs[q].tx.phase.Open? && s.procs[q].tx.effect.Idle? ==>
              s.procs[q].job.CreateJob? && !s.procs[q].pc.QuotaLock?
  {}

  /** Whoever holds a lock can move, or is a creation waiting for its key row. */
  lemma HolderMoves(cfg: Config, s: State, p: Pid, q: Pid)
    requires ProcsInv(cfg, s) && LocksExact(cfg, s) && PhasesOk(cfg, s) && WaitsFor(cfg, s, p, q)
    ensures CanMove(cfg, s, q) || exists r :: WaitsFor(cfg, s, q, r) && HoldsKeyRow(s, r)
  {
    WaitedFor(cfg, s, p, q);
    var pr := s.procs[q];
    assert ProcInv(cfg, s, q) && PhaseOk(cfg, pr);
    if !InHandler(pr.pc) {
      LeftCanMove(cfg, s, q);
    } else {
      ProcSettled(cfg, s, q);
      if r :| WaitsFor(cfg, s, q, r) {
        assert pr.tx.phase.Open? ==> PcInv(cfg, s, q, pr);
      }
    }
  }

  ghost predicate HoldsKeyRow(s: State, r: Pid) {
    HoldsLive(s, r) && Completed(s.procs[r].tx.effect)
  }

  lemma KeyHolderMoves(cfg: Config, s: State, q: Pid)
    requires ProcsInv(cfg, s) && PhasesOk(cfg, s) && HoldsKeyRow(s, q)
    ensures CanMove(cfg, s, q)
  {
    var pr := s.procs[q];
    assert ProcInv(cfg, s, q) && PhaseOk(cfg, pr);
    if !InHandler(pr.pc) { LeftCanMove(cfg, s, q); } else { ProcSettled(cfg, s, q); }
  }

  /** No deadlock: whoever waits waits for a process that can move, or for one that waits for one that can. */
  lemma NoDeadlock(cfg: Config, run: seq<State>, n: nat, p: Pid, q: Pid)
    requires Run(cfg, run) && n < |run| && WaitsFor(cfg, run[n], p, q)
    ensures CanMove(cfg, run[n], q) || exists r :: WaitsFor(cfg, run[n], q, r) && CanMove(cfg, run[n], r)
  {
    RunInv(cfg, run, n);
    RunLocks(cfg, run, n);
    HolderMoves(cfg, run[n], p, q);
    if !CanMove(cfg, run[n], q) {
      var r :| WaitsFor(cfg, run[n], q, r) && HoldsKeyRow(run[n], r);
      KeyHolderMoves(cfg, run[n], r);
    }
  }
}
