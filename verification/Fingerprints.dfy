// Which request a cached response answers. The in-flight row a creation completes need not be the
// one it reserved: the sweeper also deletes in-flight rows, so a request older than the retention
// window can complete a newer request's reservation. Retention is exactly the age at which that starts.

module Fingerprints {
  import opened Prelude
  import opened Schema
  import opened Lifecycle
  import opened ControlPlane
  import opened Invariant
  import opened Preservation
  import opened Commits
  import opened Reachable
  import opened Steps

  /** The request still has bookkeeping or an undecided completion to do on its reservation. */
  predicate Outstanding(pr: Proc) {
    pr.holds && (!pr.pc.Gone? || Completing(pr.tx))
  }

  /** No request with a reservation is older than `age`. */
  ghost predicate Within(age: nat, s: State) {
    forall p :: p in s.procs && Outstanding(s.procs[p]) ==> s.now <= s.procs[p].reservedAt + age
  }

  /** A request's reservation is still its own row. */
  ghost predicate OwnsRow(s: State, p: Pid)
    requires p in s.procs
  {
    var pr := s.procs[p];
    && pr.key.Some? && pr.key.value in s.keys
    && s.keys[pr.key.value].reservedBy == p && s.keys[pr.key.value].createdAt == pr.reservedAt
  }

  ghost predicate AllOwn(s: State) {
    forall p :: p in s.procs && Outstanding(s.procs[p]) ==> OwnsRow(s, p)
  }

  ghost predicate CommitWith(o: Obs, k: IdemKey, hash: Fingerprint, body: Body) {
    o.TunnelCommitted? && o.key == Some(k) && o.hash == hash && o.body == body
  }

  ghost predicate CommittedWith(trace: seq<Obs>, k: IdemKey, hash: Fingerprint, body: Body) {
    exists i :: 0 <= i < |trace| && CommitWith(trace[i], k, hash, body)
  }

  /** A completed creation row carries the fingerprint of the request whose commit made its body. */
  ghost predicate RowMatches(s: State, k: IdemKey)
    requires k in s.keys
  {
    var row := s.keys[k];
    row.result.Some? && row.result.value.status == 201 && row.result.value.body.Some? ==>
      CommittedWith(s.trace, k, row.hash, row.result.value.body.value.plain)
  }

  ghost predicate RowsMatch(s: State) {
    forall k :: k in s.keys ==> RowMatches(s, k)
  }

  lemma CommittedWithGrows(a: seq<Obs>, b: seq<Obs>, k: IdemKey, hash: Fingerprint, body: Body)
    requires a <= b && CommittedWith(a, k, hash, body)
    ensures CommittedWith(b, k, hash, body)
  {
    var i :| 0 <= i < |a| && CommitWith(a[i], k, hash, body);
    assert b[i] == a[i];
  }

  // ----- reservations stay their owners' while requests stay young -----

  lemma OutstandingBefore(s: State, step: Step, s': State, p: Pid)
    requires StepFacts(s, step, s') && p in s.procs && p in s'.procs && Outstanding(s'.procs[p]) && !step.Reserve?
    ensures Outstanding(s.procs[p]) && s'.procs[p].key == s.procs[p].key
            && s'.procs[p].reservedAt == s.procs[p].reservedAt
  {
    if Acts(step, p) { assert Continues(s.procs[p], s'.procs[p]); }
  }

  lemma ReserveOwns(cfg: Config, s: State, step: Step, s': State)
    requires step.Reserve? && AllOwn(s) && ProcInv(cfg, s, step.p) && Next(cfg, s, step, s')
    ensures AllOwn(s')
  {
    forall q | q in s'.procs && Outstanding(s'.procs[q]) ensures OwnsRow(s', q) {
      if q != step.p { assert OwnsRow(s, q); }
    }
  }

  /** An undecided completion keeps its row locked. */
  lemma CompletingLocks(cfg: Config, s: State, p: Pid)
    requires ProcInv(cfg, s, p) && Completing(s.procs[p].tx)
    ensures s.procs[p].key.Some? && HoldsKey(s, p, s.procs[p].key.value)
  {
    assert CreatingInv(cfg, s, p, s.procs[p]);
  }

  /** A finished request touches no other request's row, because the row it finishes is its own. */
  lemma FinishOwns(cfg: Config, s: State, p: Pid, s': State)
    requires AllOwn(s) && ProcInv(cfg, s, p) && (CanPersist(s, p) || CanReleaseAfterPanic(s, p))
    requires s'.procs == s.procs[p := Leaving(s.procs[p])]
    requires forall k | Some(k) != s.procs[p].key ::
               (k in s'.keys <==> k in s.keys) && (k in s.keys ==> s'.keys[k] == s.keys[k])
    ensures AllOwn(s')
  {
    assert OwnsRow(s, p);
    if Completing(s.procs[p].tx) { CompletingLocks(cfg, s, p); }
    forall q | q in s'.procs && Outstanding(s'.procs[q]) ensures OwnsRow(s', q) {
      assert q != p;
      assert OwnsRow(s, q);
    }
  }

  lemma BookkeepingOwns(cfg: Config, s: State, step: Step, s': State)
    requires step.Persist? || step.ReleaseAfterPanic?
    requires AllOwn(s) && ProcInv(cfg, s, step.p) && Next(cfg, s, step, s')
    ensures AllOwn(s')
  {
    FinishOwns(cfg, s, step.p, s');
  }

  /** The sweeper reaches a young request's row only when its request is over. */
  lemma SweepOwns(cfg: Config, s: State, step: Step, s': State)
    requires step.SweepKey? && AllOwn(s) && ProcsInv(cfg, s) && Within(cfg.keyRetention, s) && Next(cfg, s, step, s')
    ensures AllOwn(s')
  {
    forall q | q in s'.procs && Outstanding(s'.procs[q]) ensures OwnsRow(s', q) {
      assert OwnsRow(s, q);
      if s.procs[q].pc.Gone? { assert ProcInv(cfg, s, q); CompletingLocks(cfg, s, q); }
    }
  }

  lemma CommitOwns(cfg: Config, s: State, step: Step, s': State)
    requires step.CommitTx? && AllOwn(s) && ProcInv(cfg, s, step.p) && Next(cfg, s, step, s')
    ensures AllOwn(s')
  {
    forall q | q in s'.procs && Outstanding(s'.procs[q]) ensures OwnsRow(s', q) {
      assert Outstanding(s.procs[q]);
      assert OwnsRow(s, q);
    }
  }

  lemma ActorKnown(cfg: Config, s: State, step: Step, s': State)
    requires ProcsInv(cfg, s) && Next(cfg, s, step, s')
    requires step.Reserve? || step.Persist? || step.ReleaseAfterPanic? || step.CommitTx?
    ensures ProcInv(cfg, s, step.p)
  {
    assert step.p in s.procs;
  }

  lemma StepOwns(cfg: Config, s: State, step: Step, s': State)
    requires ProcsInv(cfg, s) && AllOwn(s) && Within(cfg.keyRetention, s)
    requires Next(cfg, s, step, s') && StepFacts(s, step, s')
    ensures AllOwn(s')
  {
    if step.Reserve? || step.Persist? || step.ReleaseAfterPanic? || step.CommitTx? { ActorKnown(cfg, s, step, s'); }
    if step.Reserve? {
      ReserveOwns(cfg, s, step, s');
    } else if step.Persist? || step.ReleaseAfterPanic? {
      BookkeepingOwns(cfg, s, step, s');
    } else if step.SweepKey? {
      SweepOwns(cfg, s, step, s');
    } else if step.CommitTx? {
      CommitOwns(cfg, s, step, s');
    } else {
      QuietOwns(s, step, s');
    }
  }

  lemma QuietOwns(s: State, step: Step, s': State)
    requires AllOwn(s) && StepFacts(s, step, s') && KeysStay(step)
    ensures AllOwn(s')
  {
    forall q | q in s'.procs && Outstanding(s'.procs[q]) ensures OwnsRow(s', q) {
      if q in s.procs {
        OutstandingBefore(s, step, s', q);
        assert OwnsRow(s, q);
      }
    }
  }

  // ----- so their commits match -----

  lemma CommitMatches(cfg: Config, s: State, step: Step, s': State)
    requires step.CommitTx? && ProcInv(cfg, s, step.p) && AllOwn(s) && KeysInv(s) && RowsMatch(s)
             && Next(cfg, s, step, s')
    ensures RowsMatch(s')
  {
    var p, pr := step.p, s.procs[step.p];
    forall k | k in s'.keys ensures RowMatches(s', k) {
      if k in s.keys && s'.keys[k] == s.keys[k] {
        assert RowMatches(s, k);
        if s.keys[k].result.Some? && s.keys[k].result.value.status == 201 && s.keys[k].result.value.body.Some? {
          CommittedWithGrows(s.trace, s'.trace, k, s.keys[k].hash, s.keys[k].result.value.body.value.plain);
        }
      } else {
        assert CreatingInv(cfg, s, p, pr) && CompletingInv(s, p, pr);
        assert Outstanding(pr) && OwnsRow(s, p) && RowInv(s, k);
        assert CommitWith(s'.trace[|s.trace|], k, s.keys[k].hash, AckReply(pr).body);
      }
    }
  }

  lemma PersistMatches(cfg: Config, s: State, step: Step, s': State)
    requires step.Persist? && Next(cfg, s, step, s') && AllOwn(s) && KeysInv(s) && RowsMatch(s) && RepliesMatch(s)
    ensures RowsMatch(s')
  {
    var p := step.p;
    var k := s.procs[p].key.value;
    assert OwnCommitMatches(s, p);
    assert Outstanding(s.procs[p]) && OwnsRow(s, p) && RowInv(s, k);
    forall j | j in s'.keys ensures RowMatches(s', j) { assert RowMatches(s, j); }
  }

  /** A 201 a process has written, or is about to, is backed under its own fingerprint. */
  ghost predicate OwnCommitMatches(s: State, p: Pid)
    requires p in s.procs
  {
    var pr := s.procs[p];
    && (pr.key.Some? && Visible(pr.pc).Some? && Visible(pr.pc).value.status == 201 ==>
          CommittedWith(s.trace, pr.key.value, pr.hash, Visible(pr.pc).value.body))
    && (pr.key.Some? && pr.pc.AwaitingCommit? && pr.pc.onAck.status == 201 && pr.tx.phase.Committed? ==>
          CommittedWith(s.trace, pr.key.value, pr.hash, pr.pc.onAck.body))
  }

  ghost predicate RepliesMatch(s: State) {
    forall p :: p in s.procs ==> OwnCommitMatches(s, p)
  }

  lemma SilentReplies(s: State, step: Step, s': State)
    requires RepliesMatch(s) && StepFacts(s, step, s') && !step.ServeExisting? && !step.AckCommit? && !step.CommitTx?
    ensures RepliesMatch(s')
  {
    forall p | p in s'.procs ensures OwnCommitMatches(s', p) {
      if p in s.procs {
        assert OwnCommitMatches(s, p);
        RepliesGrow(s, s', p);
      }
    }
  }

  lemma RepliesGrow(s: State, s': State, p: Pid)
    requires p in s.procs && p in s'.procs && s.trace <= s'.trace && OwnCommitMatches(s, p)
    requires s'.procs[p].key == s.procs[p].key && s'.procs[p].hash == s.procs[p].hash
    requires s'.procs[p] == s.procs[p] || RepliesStay(s.procs[p], s'.procs[p])
    ensures OwnCommitMatches(s', p)
  {
    var pr, pr' := s.procs[p], s'.procs[p];
    if pr.key.Some? && Visible(pr'.pc).Some? && Visible(pr'.pc).value.status == 201 {
      CommittedWithGrows(s.trace, s'.trace, pr.key.value, pr.hash, Visible(pr.pc).value.body);
    }
    if pr.key.Some? && pr'.pc.AwaitingCommit? && pr'.pc.onAck.status == 201 && pr'.tx.phase.Committed? {
      CommittedWithGrows(s.trace, s'.trace, pr.key.value, pr.hash, pr.pc.onAck.body);
    }
  }

  lemma ServedReplies(cfg: Config, s: State, step: Step, s': State)
    requires step.ServeExisting? && RepliesMatch(s) && RowsMatch(s) && KeysInv(s) && Next(cfg, s, step, s')
    ensures RepliesMatch(s')
  {
    var p := step.p;
    var k := s.procs[p].key.value;
    if k in s.keys { assert RowMatches(s, k); }
    forall q | q in s'.procs ensures OwnCommitMatches(s', q) { assert OwnCommitMatches(s, q); }
  }

  lemma AckedReplies(cfg: Config, s: State, step: Step, s': State)
    requires step.AckCommit? && RepliesMatch(s) && Next(cfg, s, step, s')
    ensures RepliesMatch(s')
  {
    forall q | q in s'.procs ensures OwnCommitMatches(s', q) { assert OwnCommitMatches(s, q); }
  }

  lemma CommittedReplies(cfg: Config, s: State, step: Step, s': State)
    requires step.CommitTx? && ProcInv(cfg, s, step.p) && RepliesMatch(s) && Next(cfg, s, step, s')
    ensures RepliesMatch(s')
  {
    var p, pr := step.p, s.procs[step.p];
    forall q | q in s'.procs ensures OwnCommitMatches(s', q) {
      assert OwnCommitMatches(s, q);
      if q != p {
        RepliesGrow(s, s', q);
      } else if pr.key.Some? {
        if Visible(pr.pc).Some? && Visible(pr.pc).value.status == 201 {
          CommittedWithGrows(s.trace, s'.trace, pr.key.value, pr.hash, Visible(pr.pc).value.body);
        }
        if pr.pc.AwaitingCommit? && pr.pc.onAck.status == 201 {
          assert CommitWith(s'.trace[|s.trace|], pr.key.value, pr.hash, pr.pc.onAck.body);
        }
      }
    }
  }

  // ----- whole runs -----

  /** The row of an owed response carries the fingerprint of the commit that is owed. */
  ghost predicate DueMatches(s: State, k: IdemKey) {
    Owed(s.trace, k).Some? ==> k in s.keys && s.keys[k].hash == Owed(s.trace, k).value.hash
  }

  ghost predicate Matched(s: State) {
    AllOwn(s) && RowsMatch(s) && RepliesMatch(s) && (forall k :: DueMatches(s, k))
  }

  lemma CommitDue(cfg: Config, s: State, step: Step, s': State, k: IdemKey)
    requires step.CommitTx? && ProcInv(cfg, s, step.p) && AllOwn(s) && KeysInv(s) && HistoryInv(s) && DueMatches(s, k)
    requires Next(cfg, s, step, s')
    ensures DueMatches(s', k)
  {
    var p, pr := step.p, s.procs[step.p];
    if pr.tx.effect.Creating? {
      OwedAppend(s.trace, TunnelCommitted(p, pr.key, pr.hash, AckReply(pr).body), k);
      assert CreatingInv(cfg, s, p, pr);
      if pr.key == Some(k) {
        assert CompletingInv(s, p, pr) && Outstanding(pr) && OwnsRow(s, p) && RowInv(s, k);
      }
    }
  }

  lemma SweepDue(cfg: Config, s: State, step: Step, s': State, k: IdemKey)
    requires step.SweepKey? && HistoryInv(s) && DueMatches(s, k) && Next(cfg, s, step, s')
    ensures DueMatches(s', k)
  {
    assert Recoverable(s, k);
    if s.keys[step.k].result.Some? { OwedAppend(s.trace, ReplySwept(step.k, s.keys[step.k].createdAt, s.now), k); }
  }

  lemma BookkeepingDue(cfg: Config, s: State, step: Step, s': State, k: IdemKey)
    requires step.Persist? || step.ReleaseAfterPanic? || step.Reserve?
    requires HistoryInv(s) && DueMatches(s, k) && Next(cfg, s, step, s') && s'.trace == s.trace
    ensures DueMatches(s', k)
  {
    assert Recoverable(s, k);
  }

  lemma StepDue(cfg: Config, s: State, step: Step, s': State, k: IdemKey)
    requires AllOwn(s) && KeysInv(s) && HistoryInv(s) && DueMatches(s, k) && Next(cfg, s, step, s')
             && StepFacts(s, step, s')
    requires step.CommitTx? ==> ProcInv(cfg, s, step.p)
    ensures DueMatches(s', k)
  {
    if step.CommitTx? {
      CommitDue(cfg, s, step, s', k);
    } else if step.SweepKey? {
      SweepDue(cfg, s, step, s', k);
    } else if step.Persist? || step.ReleaseAfterPanic? || step.Reserve? {
      BookkeepingDue(cfg, s, step, s', k);
    }
  }

  lemma QuietRows(s: State, s': State)
    requires RowsMatch(s) && s.trace <= s'.trace
    requires forall k :: k in s'.keys && s'.keys[k].result.Some? ==> k in s.keys && s'.keys[k] == s.keys[k]
    ensures RowsMatch(s')
  {
    forall k | k in s'.keys ensures RowMatches(s', k) {
      if s'.keys[k].result.Some? {
        assert RowMatches(s, k);
        if s.keys[k].result.value.status == 201 && s.keys[k].result.value.body.Some? {
          CommittedWithGrows(s.trace, s'.trace, k, s.keys[k].hash, s.keys[k].result.value.body.value.plain);
        }
      }
    }
  }

  lemma IncompleteRows(cfg: Config, s: State, step: Step, s': State)
    requires step.Reserve? || step.ReleaseAfterPanic? || step.SweepKey?
    requires RowsMatch(s) && Next(cfg, s, step, s') && s.trace <= s'.trace
    ensures RowsMatch(s')
  {
    QuietRows(s, s');
  }

  lemma StepRows(cfg: Config, s: State, step: Step, s': State)
    requires KeysInv(s) && Matched(s) && Next(cfg, s, step, s') && StepFacts(s, step, s')
    requires step.CommitTx? ==> ProcInv(cfg, s, step.p)
    ensures RowsMatch(s')
  {
    if step.CommitTx? {
      CommitMatches(cfg, s, step, s');
    } else if step.Persist? {
      PersistMatches(cfg, s, step, s');
    } else if step.Reserve? || step.ReleaseAfterPanic? || step.SweepKey? {
      IncompleteRows(cfg, s, step, s');
    } else {
      QuietRows(s, s');
    }
  }

  lemma StepReplies(cfg: Config, s: State, step: Step, s': State)
    requires KeysInv(s) && Matched(s) && Next(cfg, s, step, s') && StepFacts(s, step, s')
    requires step.CommitTx? ==> ProcInv(cfg, s, step.p)
    ensures RepliesMatch(s')
  {
    if step.CommitTx? {
      CommittedReplies(cfg, s, step, s');
    } else if step.ServeExisting? {
      ServedReplies(cfg, s, step, s');
    } else if step.AckCommit? {
      AckedReplies(cfg, s, step, s');
    } else {
      SilentReplies(s, step, s');
    }
  }

  lemma StepMatched(cfg: Config, s: State, step: Step, s': State)
    requires ProcsInv(cfg, s) && KeysInv(s) && HistoryInv(s)
    requires Matched(s) && Within(cfg.keyRetention, s) && Next(cfg, s, step, s')
    ensures Matched(s')
  {
    NextFacts(cfg, s, step, s');
    if step.CommitTx? { ActorKnown(cfg, s, step, s'); }
    StepOwns(cfg, s, step, s');
    StepRows(cfg, s, step, s');
    StepReplies(cfg, s, step, s');
    AllDue(cfg, s, step, s');
  }

  lemma AllDue(cfg: Config, s: State, step: Step, s': State)
    requires KeysInv(s) && HistoryInv(s) && Matched(s) && Next(cfg, s, step, s') && StepFacts(s, step, s')
    requires step.CommitTx? ==> ProcInv(cfg, s, step.p)
    ensures forall k :: DueMatches(s', k)
  {
    forall k ensures DueMatches(s', k) { StepDue(cfg, s, step, s', k); }
  }

  /** A run in which no request with a reservation grows older than `age`. */
  ghost predicate YoungRun(cfg: Config, age: nat, run: seq<State>) {
    Run(cfg, run) && forall i :: 0 <= i < |run| ==> Within(age, run[i])
  }

  lemma {:induction false} RunMatched(cfg: Config, age: nat, run: seq<State>, n: nat)
    requires YoungRun(cfg, age, run) && n < |run| && age <= cfg.keyRetention
    ensures Matched(run[n])
  {
    if n > 0 {
      RunMatched(cfg, age, run, n - 1);
      var step := StepTo(cfg, run, n);
      assert Within(age, run[n - 1]);
      StepMatched(cfg, run[n - 1], step, run[n]);
    }
  }

  /** If no request outlives retention, every later same-fingerprint request replays the owed bytes. */
  lemma ReplayForSameFingerprint(cfg: Config, run: seq<State>, n: nat, p: Pid, k: IdemKey, s': State)
    requires YoungRun(cfg, cfg.keyRetention, run) && n < |run| && Next(cfg, run[n], ServeExisting(p), s')
    requires Owed(run[n].trace, k).Some?
    requires run[n].procs[p].key == Some(k) && run[n].procs[p].hash == Owed(run[n].trace, k).value.hash
    ensures s'.procs[p].pc == Responded(Reply(201, false, Owed(run[n].trace, k).value.body))
  {
    RunMatched(cfg, cfg.keyRetention, run, n);
    RunInv(cfg, run, n);
    assert Recoverable(run[n], k) && DueMatches(run[n], k);
  }

  /** … and a 201 is only ever the answer to a request that committed with the same fingerprint. */
  lemma RepliesAnswerTheirRequest(cfg: Config, run: seq<State>, n: nat, p: Pid, k: IdemKey)
    requires YoungRun(cfg, cfg.keyRetention, run) && n < |run| && p in run[n].procs && run[n].procs[p].key == Some(k)
    requires Visible(run[n].procs[p].pc).Some? && Visible(run[n].procs[p].pc).value.status == 201
    ensures CommittedWith(run[n].trace, k, run[n].procs[p].hash, Visible(run[n].procs[p].pc).value.body)
  {
    RunMatched(cfg, cfg.keyRetention, run, n);
    assert OwnCommitMatches(run[n], p);
  }
}
