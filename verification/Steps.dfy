// What one step can and cannot change, read off the transition relation alone.

module Steps {
  import opened Prelude
  import opened Schema
  import opened Lifecycle
  import opened ControlPlane

  predicate Acts(step: Step, p: Pid) {
    !step.Tick? && !step.SweepKey? && !step.SweepToken? && step.p == p
  }

  /** A completing creation whose transaction is still undecided. */
  predicate Completing(tx: Tx) {
    Live(tx) && tx.effect.Creating? && tx.effect.complete.Some?
  }

  /** Identity and reservation of a process never change after its reservation; Gone is final. */
  ghost predicate Continues(pr: Proc, pr': Proc) {
    && pr'.job == pr.job && pr'.key == pr.key && pr'.hash == pr.hash
    && pr'.holds == pr.holds && pr'.reservedAt == pr.reservedAt
    && (pr.pc.Gone? ==> pr'.pc.Gone?)
    && (pr.tx.phase.Committed? ==> pr'.tx.phase.Committed?)
    && (Completing(pr'.tx) ==> Completing(pr.tx) || !pr.pc.Gone?)
  }

  /** A 201 becomes visible, or its commit decided, only by a replay, a commit or its acknowledgement. */
  ghost predicate RepliesStay(pr: Proc, pr': Proc) {
    && pr'.key == pr.key && pr'.hash == pr.hash
    && (Visible(pr'.pc) == Visible(pr.pc) || Visible(pr'.pc).None? || Visible(pr'.pc).value.status != 201)
    && (pr'.pc.AwaitingCommit? && pr'.tx.phase.Committed? ==> pr'.pc == pr.pc && pr.tx.phase.Committed?)
  }

  ghost predicate OthersStay(s: State, step: Step, s': State) {
    && (forall q :: q in s.procs ==> q in s'.procs && (!Acts(step, q) ==> s'.procs[q] == s.procs[q]))
    && (forall q :: q in s'.procs && q !in s.procs ==> s'.procs[q].pc.Arrived? && !s'.procs[q].holds)
  }

  ghost predicate ActorContinues(s: State, step: Step, s': State) {
    forall q :: q in s.procs && q in s'.procs && Acts(step, q) ==>
      && (!step.Reserve? ==> Continues(s.procs[q], s'.procs[q]))
      && (!step.ServeExisting? && !step.AckCommit? && !step.CommitTx? ==> RepliesStay(s.procs[q], s'.procs[q]))
  }

  ghost predicate LedgerStays(s: State, s': State) {
    s'.tunnels == s.tunnels && s'.issued == s.issued && s'.log == s.log && s'.grants == s.grants
  }

  ghost predicate KeysStay(step: Step) {
    !step.Reserve? && !step.Persist? && !step.ReleaseAfterPanic? && !step.CommitTx? && !step.SweepKey?
  }

  ghost predicate StepFacts(s: State, step: Step, s': State) {
    && s.now <= s'.now
    && s.trace <= s'.trace
    && OthersStay(s, step, s')
    && ActorContinues(s, step, s')
    && (!step.CommitTx? ==> LedgerStays(s, s'))
    && (KeysStay(step) ==> s'.keys == s.keys)
    && (!step.CommitTx? && !step.SweepKey? ==> s'.trace == s.trace)
  }

  lemma EntryFacts(cfg: Config, s: State, step: Step, s': State)
    requires Next(cfg, s, step, s')
    requires step.Arrive? || step.Start? || step.Reserve? || step.ReserveHits? || step.ServeExisting?
    ensures StepFacts(s, step, s')
  {}

  lemma PersistFacts(cfg: Config, s: State, step: Step, s': State)
    requires Next(cfg, s, step, s') && step.Persist?
    ensures StepFacts(s, step, s')
  {}

  lemma ReleaseFacts(cfg: Config, s: State, step: Step, s': State)
    requires Next(cfg, s, step, s') && step.ReleaseAfterPanic?
    ensures StepFacts(s, step, s')
  {}

  lemma BackgroundFacts(cfg: Config, s: State, step: Step, s': State)
    requires Next(cfg, s, step, s')
    requires step.SweepKey? || step.SweepToken? || step.Tick?
    ensures StepFacts(s, step, s')
  {}

  lemma QuotaFacts(cfg: Config, s: State, step: Step, s': State)
    requires Next(cfg, s, step, s')
    requires step.BeginCreate? || step.TakeQuotaLock? || step.CountTunnels?
    ensures StepFacts(s, step, s')
  {}

  lemma InsertFacts(cfg: Config, s: State, step: Step, s': State)
    requires Next(cfg, s, step, s')
    requires step.InsertTunnel? || step.InsertConflicts?
    ensures StepFacts(s, step, s')
  {}

  lemma CreateFacts(cfg: Config, s: State, step: Step, s': State)
    requires Next(cfg, s, step, s')
    requires step.StoreToken? || step.LogEvent? || step.CompleteKey? || step.CompleteMisses?
    ensures StepFacts(s, step, s')
  {}

  lemma CallFacts(cfg: Config, s: State, step: Step, s': State)
    requires Next(cfg, s, step, s')
    requires step.BeginRevoke? || step.LookupToken? || step.ReadStatus?
    ensures StepFacts(s, step, s')
  {}

  lemma LockFacts(cfg: Config, s: State, step: Step, s': State)
    requires Next(cfg, s, step, s')
    requires step.LockRow? || step.LockMisses?
    ensures StepFacts(s, step, s')
  {}

  lemma TransitionFacts(cfg: Config, s: State, step: Step, s': State)
    requires Next(cfg, s, step, s')
    requires step.CheckClock? || step.UpdateStatus? || step.RevokeTokens?
    ensures StepFacts(s, step, s')
  {}

  lemma ReapFacts(cfg: Config, s: State, step: Step, s': State)
    requires Next(cfg, s, step, s')
    requires step.BeginReap? || step.ReapRow? || step.LogExpiry?
    ensures StepFacts(s, step, s')
  {}

  lemma CommitFacts(cfg: Config, s: State, step: Step, s': State)
    requires Next(cfg, s, step, s')
    requires step.CommitTx?
    ensures StepFacts(s, step, s')
  {}

  lemma DecisionFacts(cfg: Config, s: State, step: Step, s': State)
    requires Next(cfg, s, step, s')
    requires step.SendCommit? || step.AbortTx? || step.AckCommit?
    ensures StepFacts(s, step, s')
  {}

  lemma FailureFacts(cfg: Config, s: State, step: Step, s': State)
    requires Next(cfg, s, step, s')
    requires step.Fail? || step.Panic? || step.Leave?
    ensures StepFacts(s, step, s')
  {}

  lemma NextFacts(cfg: Config, s: State, step: Step, s': State)
    requires Next(cfg, s, step, s')
    ensures StepFacts(s, step, s')
  {
    if step.Arrive? || step.Start? || step.Reserve? || step.ReserveHits? || step.ServeExisting? {
      EntryFacts(cfg, s, step, s');
    } else if step.Persist? {
      PersistFacts(cfg, s, step, s');
    } else if step.ReleaseAfterPanic? {
      ReleaseFacts(cfg, s, step, s');
    } else if step.SweepKey? || step.SweepToken? || step.Tick? {
      BackgroundFacts(cfg, s, step, s');
    } else if step.BeginCreate? || step.TakeQuotaLock? || step.CountTunnels? {
      QuotaFacts(cfg, s, step, s');
    } else if step.InsertTunnel? || step.InsertConflicts? {
      InsertFacts(cfg, s, step, s');
    } else if step.StoreToken? || step.LogEvent? || step.CompleteKey? || step.CompleteMisses? {
      CreateFacts(cfg, s, step, s');
    } else if step.BeginRevoke? || step.LookupToken? || step.ReadStatus? {
      CallFacts(cfg, s, step, s');
    } else if step.LockRow? || step.LockMisses? {
      LockFacts(cfg, s, step, s');
    } else if step.CheckClock? || step.UpdateStatus? || step.RevokeTokens? {
      TransitionFacts(cfg, s, step, s');
    } else if step.BeginReap? || step.ReapRow? || step.LogExpiry? {
      ReapFacts(cfg, s, step, s');
    } else if step.CommitTx? {
      CommitFacts(cfg, s, step, s');
    } else if step.SendCommit? || step.AbortTx? || step.AckCommit? {
      DecisionFacts(cfg, s, step, s');
    } else {
      FailureFacts(cfg, s, step, s');
    }
  }
}
