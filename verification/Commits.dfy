// The commit step: a transaction's private effects become one lifecycle call on the shared ledger.

module Commits {
  import opened Prelude
  import opened Schema
  import opened Lifecycle
  import opened ControlPlane
  import opened Invariant
  import opened Preservation

  /** The call a committing process performs, as if alone at this moment. */
  function OpOf(p: Pid, pr: Proc): Op {
    match pr.tx.effect
    case Idle => ReapOp({}, 0)
    case Creating(id, row, token, _, _) =>
      CreateOp(id, row, p, if token.Some? then token.value else RuntimeToken(id, Sha256(""), 0, None))
    case Moving(t, e, _, _, grant, _) =>
      if e.Revoke? then RevokeOp(t, pr.tx.begun) else TransitionOp(t, e, if grant.Some? then grant.value.at else 0)
    case Reaping(rows, _) => ReapOp(rows, pr.tx.begun)
  }

  function AfterCommit(s: State, p: Pid): State
    requires p in s.procs
  {
    Put(Unlocked(Installed(s, p, s.procs[p]), p), p, Ended(s.procs[p], Committed))
  }

  ghost predicate IsCommitting(cfg: Config, s: State, p: Pid) {
    ProcInv(cfg, s, p) && s.procs[p].tx.phase.Committing?
  }

  lemma CommitLegal(cfg: Config, s: State, p: Pid)
    requires IsCommitting(cfg, s, p)
    ensures Legal(MaxTtl(cfg), LedgerOf(s), OpOf(p, s.procs[p]), s.now)
  {
    var pr := s.procs[p];
    match pr.tx.effect
    case Idle =>
    case Creating(_, _, _, _, _) => assert CreatingInv(cfg, s, p, pr);
    case Moving(_, _, _, _, _, _) => assert MovingInv(s, p, pr);
    case Reaping(_, _) => assert ReapingInv(s, p, pr);
  }

  lemma CreatePerforms(cfg: Config, s: State, p: Pid)
    requires IsCommitting(cfg, s, p) && s.procs[p].tx.effect.Creating?
    ensures LedgerOf(AfterCommit(s, p)) == Perform(LedgerOf(s), OpOf(p, s.procs[p]))
  {
    assert CreatingInv(cfg, s, p, s.procs[p]);
  }

  lemma TransitionPerforms(cfg: Config, s: State, p: Pid)
    requires IsCommitting(cfg, s, p) && s.procs[p].tx.effect.Moving? && !s.procs[p].tx.effect.e.Revoke?
    ensures LedgerOf(AfterCommit(s, p)) == Perform(LedgerOf(s), OpOf(p, s.procs[p]))
  {
    var e := s.procs[p].tx.effect;
    assert MovingInv(s, p, s.procs[p]);
    assert TakenEdge(s.tunnels[e.t], e.e, if e.grant.Some? then e.grant.value.at else 0) == e.to;
  }

  lemma RevokePerforms(cfg: Config, s: State, p: Pid)
    requires IsCommitting(cfg, s, p) && s.procs[p].tx.effect.Moving? && s.procs[p].tx.effect.e.Revoke?
    ensures LedgerOf(AfterCommit(s, p)) == Perform(LedgerOf(s), OpOf(p, s.procs[p]))
  {
    assert MovingInv(s, p, s.procs[p]);
  }

  lemma ReapPerforms(cfg: Config, s: State, p: Pid)
    requires IsCommitting(cfg, s, p) && s.procs[p].tx.effect.Reaping?
    ensures LedgerOf(AfterCommit(s, p)) == Perform(LedgerOf(s), OpOf(p, s.procs[p]))
  {}

  /** Locks make the commit atomic: the ledger moves exactly as the lone handler would move it. */
  lemma CommitPerforms(cfg: Config, s: State, p: Pid)
    requires IsCommitting(cfg, s, p)
    ensures LedgerOf(AfterCommit(s, p)) == Perform(LedgerOf(s), OpOf(p, s.procs[p]))
  {
    match s.procs[p].tx.effect
    case Idle =>
    case Creating(_, _, _, _, _) => CreatePerforms(cfg, s, p);
    case Moving(_, e, _, _, _, _) => if e.Revoke? { RevokePerforms(cfg, s, p); } else { TransitionPerforms(cfg, s, p); }
    case Reaping(_, _) => ReapPerforms(cfg, s, p);
  }

  // ----- quota -----

  /** Only a creation raises a user's usage, and only its own user's, by one. */
  lemma UsageAfter(cfg: Config, s: State, p: Pid, u: UserId)
    requires IsCommitting(cfg, s, p)
    ensures var e := s.procs[p].tx.effect;
            Usage(InstalledTunnels(s.tunnels, e), u)
            <= Usage(s.tunnels, u) + (if e.Creating? && e.row.user == u then 1 else 0)
  {
    var e := s.procs[p].tx.effect;
    var before, after := NonTerminalOf(s.tunnels, u), NonTerminalOf(InstalledTunnels(s.tunnels, e), u);
    if e.Creating? {
      assert CreatingInv(cfg, s, p, s.procs[p]);
      if e.row.user == u {
        assert after == before + {e.id};
      } else {
        SubsetSize(after, before);
      }
    } else if e.Moving? {
      assert MovingInv(s, p, s.procs[p]);
      if e.to.Some? { EdgeLeavesNonTerminal(s.tunnels[e.t].status, e.e); }
      SubsetSize(after, before);
    } else {
      assert ReapingInv(s, p, s.procs[p]);
      SubsetSize(after, before);
    }
  }

  lemma CommitQuota(cfg: Config, s: State, p: Pid)
    requires IsCommitting(cfg, s, p) && QuotaKept(cfg, s)
    ensures QuotaKept(cfg, AfterCommit(s, p))
  {
    forall u ensures Usage(AfterCommit(s, p).tunnels, u) <= cfg.maxConcurrent {
      UsageAfter(cfg, s, p, u);
      assert Usage(s.tunnels, u) <= cfg.maxConcurrent;
      if s.procs[p].tx.effect.Creating? { assert CreatingInv(cfg, s, p, s.procs[p]); }
    }
  }

  // ----- the other processes -----

  /** A commit writes only tunnel rows it holds, and never their owner or expiry. */
  lemma WritesLockedRows(cfg: Config, s: State, p: Pid, t: TunnelId)
    requires IsCommitting(cfg, s, p)
    ensures var ts := InstalledTunnels(s.tunnels, s.procs[p].tx.effect);
            && (!HoldsRow(s, p, t) ==> (t in ts <==> t in s.tunnels) && (t in s.tunnels ==> ts[t] == s.tunnels[t]))
            && (t in s.tunnels ==>
                  t in ts && ts[t].expiresAt == s.tunnels[t].expiresAt && ts[t].user == s.tunnels[t].user)
  {
    var pr := s.procs[p];
    match pr.tx.effect
    case Idle =>
    case Creating(_, _, _, _, _) => assert CreatingInv(cfg, s, p, pr);
    case Moving(_, _, _, _, _, _) => assert MovingInv(s, p, pr);
    case Reaping(_, _) => assert ReapingInv(s, p, pr);
  }

  lemma WritesLockedKey(cfg: Config, s: State, p: Pid, k: IdemKey)
    requires IsCommitting(cfg, s, p) && !HoldsKey(s, p, k)
    ensures var keys := InstalledKeys(s.keys, s.procs[p]);
            (k in keys <==> k in s.keys) && (k in s.keys ==> keys[k] == s.keys[k])
  {
    var pr := s.procs[p];
    if pr.tx.effect.Creating? { assert CreatingInv(cfg, s, p, pr); }
  }

  lemma IssueGrows(s: State, p: Pid, r: nat)
    requires p in s.procs && p !in s.issued && r in s.issued
    ensures var issued := InstalledTokens(s.issued, p, s.procs[p].tx);
            && r in issued && issued[r].tunnel == s.issued[r].tunnel && issued[r].digest == s.issued[r].digest
            && issued[r].expiresAt == s.issued[r].expiresAt
            && (s.issued[r].revokedAt.Some? ==> issued[r].revokedAt.Some?)
  {}

  lemma CommitGrown(cfg: Config, s: State, p: Pid)
    requires IsCommitting(cfg, s, p)
    ensures Grown(s, AfterCommit(s, p))
  {
    var s' := AfterCommit(s, p);
    forall t | t in s.tunnels
      ensures t in s'.tunnels && s'.tunnels[t].expiresAt == s.tunnels[t].expiresAt
              && s'.tunnels[t].user == s.tunnels[t].user
    {
      WritesLockedRows(cfg, s, p, t);
    }
    forall r | r in s.issued
      ensures r in s'.issued && s'.issued[r].tunnel == s.issued[r].tunnel && s'.issued[r].digest == s.issued[r].digest
      ensures s'.issued[r].expiresAt == s.issued[r].expiresAt
              && (s.issued[r].revokedAt.Some? ==> s'.issued[r].revokedAt.Some?)
    {
      IssueGrows(s, p, r);
    }
  }

  /** A row another process has locked is not one the committing process writes. */
  lemma CommitSparesLocked(cfg: Config, s: State, p: Pid, q: Pid)
    requires IsCommitting(cfg, s, p) && q != p
    ensures var s' := AfterCommit(s, p);
            && (forall t :: HoldsRow(s, q, t) ==>
                 && HoldsRow(s', q, t) && (t in s.tunnels <==> t in s'.tunnels)
                 && (t in s.tunnels ==> s'.tunnels[t] == s.tunnels[t]))
            && (forall k :: HoldsKey(s, q, k) ==>
                 && HoldsKey(s', q, k) && (k in s.keys <==> k in s'.keys)
                 && (k in s.keys ==> s'.keys[k] == s.keys[k]))
  {
    forall t | HoldsRow(s, q, t)
      ensures var s' := AfterCommit(s, p);
              HoldsRow(s', q, t) && (t in s.tunnels <==> t in s'.tunnels)
              && (t in s.tunnels ==> s'.tunnels[t] == s.tunnels[t])
    {
      WritesLockedRows(cfg, s, p, t);
    }
    forall k | HoldsKey(s, q, k)
      ensures var s' := AfterCommit(s, p);
              HoldsKey(s', q, k) && (k in s.keys <==> k in s'.keys) && (k in s.keys ==> s'.keys[k] == s.keys[k])
    {
      WritesLockedKey(cfg, s, p, k);
    }
  }

  lemma CommitSparesQuota(cfg: Config, s: State, p: Pid, q: Pid, u: UserId)
    requires IsCommitting(cfg, s, p) && q != p && HoldsQuota(cfg, s, q, u)
    ensures HoldsQuota(cfg, AfterCommit(s, p), q, u) && Usage(AfterCommit(s, p).tunnels, u) <= Usage(s.tunnels, u)
  {
    UsageAfter(cfg, s, p, u);
    if s.procs[p].tx.effect.Creating? { assert CreatingInv(cfg, s, p, s.procs[p]); }
  }

  lemma CommitUndisturbed(cfg: Config, s: State, p: Pid, q: Pid)
    requires IsCommitting(cfg, s, p) && q in s.procs && q != p
    ensures Undisturbed(cfg, s, AfterCommit(s, p), q)
  {
    CommitSparesLocked(cfg, s, p, q);
    CommitGrown(cfg, s, p);
    forall u | HoldsQuota(cfg, s, q, u)
      ensures HoldsQuota(cfg, AfterCommit(s, p), q, u) && Usage(AfterCommit(s, p).tunnels, u) <= Usage(s.tunnels, u)
    {
      CommitSparesQuota(cfg, s, p, q, u);
    }
  }

  lemma CommitOwn(cfg: Config, s: State, p: Pid)
    requires IsCommitting(cfg, s, p)
    ensures ProcInv(cfg, AfterCommit(s, p), p)
  {
    var pr, s' := s.procs[p], AfterCommit(s, p);
    if Visible(pr.pc).Some? && Visible(pr.pc).value.status == 201 {
      BackedGrows(s.trace, s'.trace, p, pr.key, Visible(pr.pc).value.body);
    }
    if pr.pc.AwaitingCommit? && pr.pc.onAck.status == 201 {
      assert Backs(s'.trace[|s.trace|], p, pr.key, pr.pc.onAck.body);
    }
  }

  lemma CommitProcs(cfg: Config, s: State, p: Pid)
    requires ProcsInv(cfg, s) && IsCommitting(cfg, s, p)
    ensures ProcsInv(cfg, AfterCommit(s, p))
  {
    CommitOwn(cfg, s, p);
    forall q | q in s.procs && q != p ensures ProcInv(cfg, AfterCommit(s, p), q) {
      CommitUndisturbed(cfg, s, p, q);
      ProcUndisturbed(cfg, s, AfterCommit(s, p), q);
    }
  }

  // ----- tables and history -----

  lemma CreateTokens(cfg: Config, s: State, p: Pid)
    requires IsCommitting(cfg, s, p) && s.procs[p].tx.effect.Creating? && TokensFollowIssue(s)
    ensures TokensFollowIssue(AfterCommit(s, p))
  {
    assert CreatingInv(cfg, s, p, s.procs[p]);
  }

  lemma CommitTokens(cfg: Config, s: State, p: Pid)
    requires IsCommitting(cfg, s, p) && TokensFollowIssue(s)
    ensures TokensFollowIssue(AfterCommit(s, p))
  {
    if s.procs[p].tx.effect.Creating? { CreateTokens(cfg, s, p); }
  }

  lemma GrantsBefore(cfg: Config, s: State, p: Pid, t: TunnelId)
    requires IsCommitting(cfg, s, p) && ServingGranted(s)
    ensures var e := s.procs[p].tx.effect;
            var grants, ts := InstalledGrants(s.grants, e), InstalledTunnels(s.tunnels, e);
            && (t in grants ==> Granted(s, t, grants[t]))
            && (t in ts && (ts[t].status.Active? || ts[t].status.Closed?) ==> t in grants)
  {
    var pr := s.procs[p];
    match pr.tx.effect
    case Idle =>
    case Creating(_, _, _, _, _) => assert CreatingInv(cfg, s, p, pr);
    case Moving(_, _, _, _, _, _) => assert MovingInv(s, p, pr);
    case Reaping(_, _) => assert ReapingInv(s, p, pr);
  }

  lemma CommitGrants(cfg: Config, s: State, p: Pid)
    requires IsCommitting(cfg, s, p) && ServingGranted(s)
    ensures ServingGranted(AfterCommit(s, p))
  {
    var s' := AfterCommit(s, p);
    CommitGrown(cfg, s, p);
    forall t | t in s'.grants ensures Granted(s', t, s'.grants[t]) {
      GrantsBefore(cfg, s, p, t);
      GrantGrows(s, s', t, s'.grants[t]);
    }
    forall t | t in s'.tunnels && (s'.tunnels[t].status.Active? || s'.tunnels[t].status.Closed?)
      ensures t in s'.grants
    {
      GrantsBefore(cfg, s, p, t);
    }
  }

  lemma CommitRows(cfg: Config, s: State, p: Pid)
    requires IsCommitting(cfg, s, p) && KeysInv(s)
    ensures KeysInv(AfterCommit(s, p))
  {
    var pr, s' := s.procs[p], AfterCommit(s, p);
    CommitGrown(cfg, s, p);
    forall k | k in s'.keys ensures RowInv(s', k) {
      assert RowInv(s, k);
      if s'.keys[k] == s.keys[k] {
        if s.keys[k].result.Some? && s.keys[k].result.value.body.Some? && s.keys[k].result.value.status == 201 {
          BackedGrows(s.trace, s'.trace, 0, Some(k), s.keys[k].result.value.body.value.plain);
        }
      } else {
        assert CompletingInv(s, p, pr);
        assert Backs(s'.trace[|s.trace|], 0, Some(k), AckReply(pr).body);
      }
    }
  }

  lemma CommitHistory(cfg: Config, s: State, p: Pid)
    requires IsCommitting(cfg, s, p) && HistoryInv(s)
    ensures HistoryInv(AfterCommit(s, p))
  {
    var pr, s' := s.procs[p], AfterCommit(s, p);
    if pr.tx.effect.Creating? {
      assert CreatingInv(cfg, s, p, pr);
      var o := TunnelCommitted(p, pr.key, pr.hash, AckReply(pr).body);
      forall k | CommitUnder(o, k) ensures Owed(s.trace, k).None? {
        NothingOwedInFlight(cfg, s, p, k);
      }
      SeparatedAppend(s.trace, o);
      forall k ensures Recoverable(s', k) {
        OwedAppend(s.trace, o, k);
        assert Recoverable(s, k);
        if pr.key == Some(k) { NothingOwedInFlight(cfg, s, p, k); }
      }
    } else {
      forall k ensures Recoverable(s', k) { assert Recoverable(s, k); }
    }
  }

  /** A keyed creation about to commit holds an in-flight row, so nothing is owed under its key. */
  lemma NothingOwedInFlight(cfg: Config, s: State, p: Pid, k: IdemKey)
    requires IsCommitting(cfg, s, p) && HistoryInv(s) && s.procs[p].tx.effect.Creating? && s.procs[p].key == Some(k)
    ensures CompletingInv(s, p, s.procs[p]) && Owed(s.trace, k).None?
  {
    assert CreatingInv(cfg, s, p, s.procs[p]);
    assert Recoverable(s, k);
  }

  lemma CommitKept(cfg: Config, s: State, p: Pid)
    requires Inv(cfg, s) && p in s.procs && s.procs[p].tx.phase.Committing?
    ensures Inv(cfg, AfterCommit(s, p))
  {
    assert ProcInv(cfg, s, p);
    CommitProcs(cfg, s, p);
    CommitLegal(cfg, s, p);
    CommitPerforms(cfg, s, p);
    SoundKept(MaxTtl(cfg), LedgerOf(s), OpOf(p, s.procs[p]), s.now);
    CommitQuota(cfg, s, p);
    CommitTokens(cfg, s, p);
    CommitGrants(cfg, s, p);
    CommitRows(cfg, s, p);
    CommitHistory(cfg, s, p);
  }
}
