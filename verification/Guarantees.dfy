// What the control plane guarantees in every reachable state, and from one state to the next.

module Guarantees {
  import opened Prelude
  import opened Schema
  import opened Lifecycle
  import opened ControlPlane
  import opened Invariant
  import opened Preservation
  import opened Commits
  import opened Reachable
  import opened Steps

  // ----- quota -----

  /** Creations of user u that have inserted their row and are not yet committed. */
  ghost function Pending(s: State, u: UserId): set<Pid> {
    set p | p in s.procs && Live(s.procs[p].tx) && s.procs[p].tx.effect.Creating? && s.procs[p].tx.effect.row.user == u
  }

  lemma OnePending(cfg: Config, s: State, u: UserId)
    requires Inv(cfg, s)
    ensures Pending(s, u) == {} || (exists p :: Pending(s, u) == {p} && Usage(s.tunnels, u) < cfg.maxConcurrent)
  {
    if p :| p in Pending(s, u) {
      assert ProcInv(cfg, s, p) && CreatingInv(cfg, s, p, s.procs[p]);
      forall q | q in Pending(s, u) ensures q == p {
        assert ProcInv(cfg, s, q) && CreatingInv(cfg, s, q, s.procs[q]);
      }
      assert Pending(s, u) == {p};
    }
  }

  /** Committed non-terminal tunnels plus rows of undecided creations never exceed the quota. */
  lemma QuotaHolds(cfg: Config, run: seq<State>, i: nat, u: UserId)
    requires Run(cfg, run) && i < |run|
    ensures Usage(run[i].tunnels, u) + |Pending(run[i], u)| <= cfg.maxConcurrent
  {
    RunInv(cfg, run, i);
    OnePending(cfg, run[i], u);
    assert Usage(run[i].tunnels, u) <= cfg.maxConcurrent;
  }

  // ----- at most one committed creation per key -----

  /** Any two commits under one key have a sweep of that key's completed row between them. */
  lemma AtMostOnce(cfg: Config, run: seq<State>, n: nat, i: nat, j: nat, k: IdemKey)
    requires Run(cfg, run) && n < |run|
    requires i < j < |run[n].trace| && CommitUnder(run[n].trace[i], k) && CommitUnder(run[n].trace[j], k)
    ensures exists m :: i < m < j && run[n].trace[m].ReplySwept? && run[n].trace[m].swept == k
  {
    RunInv(cfg, run, n);
    assert SweptBetween(run[n].trace, k, i, j);
  }

  /** Each request commits at most one tunnel, keyed or not. */
  lemma OneCommitPerRequest(cfg: Config, run: seq<State>, n: nat, i: nat, j: nat)
    requires Run(cfg, run) && n < |run| && i < |run[n].trace| && j < |run[n].trace|
    requires run[n].trace[i].TunnelCommitted? && run[n].trace[j].TunnelCommitted?
             && run[n].trace[i].pid == run[n].trace[j].pid
    ensures i == j
  {
    RunInv(cfg, run, n);
  }

  // ----- recoverability -----

  /** A committed creation not swept since has a completed row holding exactly its sealed response. */
  lemma CommittedIsRecoverable(cfg: Config, run: seq<State>, n: nat, k: IdemKey, due: Due)
    requires Run(cfg, run) && n < |run| && Owed(run[n].trace, k) == Some(due)
    ensures k in run[n].keys && run[n].keys[k].result == Some(Stored(201, Some(Sealed(k, 201, due.body))))
  {
    RunInv(cfg, run, n);
    assert Recoverable(run[n], k);
  }

  /** Only the sweeper can end that: no release, late completion, failure or further commit does. */
  lemma OnlySweepForgets(cfg: Config, run: seq<State>, n: nat, step: Step, k: IdemKey)
    requires Run(cfg, run) && n + 1 < |run| && Next(cfg, run[n], step, run[n + 1])
    requires Owed(run[n].trace, k).Some? && step != SweepKey(k)
    ensures Owed(run[n + 1].trace, k) == Owed(run[n].trace, k)
    ensures k in run[n].keys && k in run[n + 1].keys && run[n + 1].keys[k].result == run[n].keys[k].result
  {
    var s, s' := run[n], run[n + 1];
    RunInv(cfg, run, n);
    RunInv(cfg, run, n + 1);
    NextFacts(cfg, s, step, s');
    OwedStays(cfg, s, step, s', k);
    assert Recoverable(s, k) && Recoverable(s', k);
  }

  lemma {:induction false} CommitOwes(cfg: Config, s: State, p: Pid, k: IdemKey)
    requires IsCommitting(cfg, s, p) && HistoryInv(s) && Owed(s.trace, k).Some?
    ensures Owed(InstalledTrace(s.trace, p, s.procs[p]), k) == Owed(s.trace, k)
  {
    var pr := s.procs[p];
    if pr.tx.effect.Creating? {
      OwedAppend(s.trace, TunnelCommitted(p, pr.key, pr.hash, AckReply(pr).body), k);
      if pr.key == Some(k) { NothingOwedInFlight(cfg, s, p, k); }
    }
  }

  lemma {:induction false} OwedStays(cfg: Config, s: State, step: Step, s': State, k: IdemKey)
    requires Inv(cfg, s) && Next(cfg, s, step, s') && StepFacts(s, step, s')
    requires Owed(s.trace, k).Some? && step != SweepKey(k)
    ensures Owed(s'.trace, k) == Owed(s.trace, k)
  {
    if step.CommitTx? {
      assert IsCommitting(cfg, s, step.p);
      CommitOwes(cfg, s, step.p, k);
    } else if step.SweepKey? {
      if s.keys[step.k].result.Some? { OwedAppend(s.trace, ReplySwept(step.k, s.keys[step.k].createdAt, s.now), k); }
    }
  }

  /** Every later request with the row's fingerprint is answered 201 with the committed bytes. */
  lemma ReplayServesCommit(cfg: Config, run: seq<State>, n: nat, p: Pid, k: IdemKey, s': State)
    requires Run(cfg, run) && n < |run| && Next(cfg, run[n], ServeExisting(p), s')
    requires run[n].procs[p].key == Some(k) && Owed(run[n].trace, k).Some?
    requires k in run[n].keys && run[n].procs[p].hash == run[n].keys[k].hash
    ensures s'.procs[p].pc == Responded(Reply(201, false, Owed(run[n].trace, k).value.body))
  {
    RunInv(cfg, run, n);
    assert Recoverable(run[n], k);
  }

  // ----- status and events -----

  /** Each tunnel's status is what its full event log explains; a terminating event is the last one. */
  lemma StatusRefinesHistory(cfg: Config, run: seq<State>, n: nat, t: TunnelId)
    requires Run(cfg, run) && n < |run| && t in run[n].tunnels
    ensures t in run[n].log && Fold(run[n].log[t]) == Some(run[n].tunnels[t].status)
    ensures var log := run[n].log[t];
            && |log| > 0
            && (forall m :: 0 < m <= |log| ==> Fold(log[..m]).Some?)
            && (forall m :: 0 <= m < |log| - 1 ==> !Terminating(log[m]))
            && (Terminating(log[|log| - 1]) <==> !NonTerminal(run[n].tunnels[t].status))
  {
    RunInv(cfg, run, n);
    var log := run[n].log[t];
    FoldShape(log);
    forall m | 0 < m <= |log| ensures Fold(log[..m]).Some? { FoldPrefix(log, m); }
  }

  /** Each status is told by the last lifecycle event, and a reserved tunnel has had none but its creation. */
  lemma StatusIsLastEvent(cfg: Config, run: seq<State>, n: nat, t: TunnelId)
    requires Run(cfg, run) && n < |run| && t in run[n].tunnels
    ensures t in run[n].log && |run[n].log[t]| > 0
    ensures var status, log := run[n].tunnels[t].status, run[n].log[t];
            var last := log[|log| - 1];
            && (status == Reserved <==> log == [Created])
            && (status == Active <==> last == NewProxy)
            && (status == Closed <==> last == CloseProxy)
            && (status == Expired <==> last == Expire)
            && (status == Revoked <==> last == Revoke)
  {
    RunInv(cfg, run, n);
    LastEventDecides(run[n].log[t]);
  }

  /** A reconnect of a tunnel that is still active commits without a status change or an event. */
  lemma ReconnectAddsNothing(cfg: Config, run: seq<State>, n: nat, p: Pid)
    requires Run(cfg, run) && n < |run| && p in run[n].procs && run[n].procs[p].tx.phase.Committing?
    requires run[n].procs[p].tx.effect.Moving? && run[n].procs[p].tx.effect.e.NewProxy?
    requires run[n].procs[p].tx.effect.t in run[n].tunnels
    requires run[n].tunnels[run[n].procs[p].tx.effect.t].status.Active?
    ensures LedgerOf(AfterCommit(run[n], p)) == LedgerOf(run[n])
  {
    RunInv(cfg, run, n);
    assert ProcInv(cfg, run[n], p);
    CommitPerforms(cfg, run[n], p);
  }

  // ----- credentials -----

  /** Every credential issued expires with its tunnel, a revoked tunnel has none left unrevoked, an
      expired one has elapsed, and no tunnel is given more than MaxTTL. */
  lemma CredentialsFollowTunnels(cfg: Config, run: seq<State>, n: nat)
    requires Run(cfg, run) && n < |run|
    ensures forall r :: r in run[n].issued ==>
              && run[n].issued[r].tunnel in run[n].tunnels
              && run[n].issued[r].expiresAt == run[n].tunnels[run[n].issued[r].tunnel].expiresAt
              && (run[n].tunnels[run[n].issued[r].tunnel].status == Revoked ==> run[n].issued[r].revokedAt.Some?)
              && (run[n].issued[r].revokedAt.Some? ==>
                    run[n].tunnels[run[n].issued[r].tunnel].status in {Revoked, Expired})
    ensures forall t :: t in run[n].tunnels ==>
              && (run[n].tunnels[t].status == Expired ==> run[n].tunnels[t].expiresAt < run[n].now)
              && run[n].tunnels[t].expiresAt <= run[n].tunnels[t].insertedAt + MaxTtl(cfg)
  {
    RunInv(cfg, run, n);
  }

  /** An unrevoked, unexpired credential belongs to a tunnel that is neither terminal nor elapsed. */
  lemma LiveCredentialLiveTunnel(cfg: Config, run: seq<State>, n: nat, r: nat)
    requires Run(cfg, run) && n < |run| && r in run[n].issued && TokenAlive(run[n].issued[r], run[n].now)
    ensures var t := run[n].issued[r].tunnel;
            t in run[n].tunnels && NonTerminal(run[n].tunnels[t].status) && run[n].tunnels[t].expiresAt > run[n].now
  {
    RunInv(cfg, run, n);
  }

  /** The lookup's join filter is redundant, and sweeping dead credentials changes no answer it gives. */
  lemma LookupIgnoresSweeps(cfg: Config, run: seq<State>, n: nat, r: nat, secret: string)
    requires Run(cfg, run) && n < |run|
    ensures Accepted(run[n], r, secret) <==>
              r in run[n].tokens && TokenAlive(run[n].tokens[r], run[n].now)
              && run[n].tokens[r].digest == Sha256(secret)
    ensures Accepted(run[n], r, secret) <==>
              r in run[n].issued && TokenAlive(run[n].issued[r], run[n].now)
              && run[n].issued[r].digest == Sha256(secret)
  {
    RunInv(cfg, run, n);
    if r in run[n].issued && TokenAlive(run[n].issued[r], run[n].now) {
      LiveCredentialLiveTunnel(cfg, run, n, r);
      assert r in run[n].tokens;
    }
  }

  /** The document of a committed creation names a tunnel that exists, with its expiry, and carries the
      secret of a credential issued for it. */
  ghost predicate Delivers(s: State, o: Obs) {
    o.TunnelCommitted? ==>
      && o.body.TunnelBody? && o.body.tunnel in s.tunnels && o.pid in s.issued
      && s.issued[o.pid].tunnel == o.body.tunnel && s.issued[o.pid].digest == Sha256(o.body.secret)
      && s.issued[o.pid].expiresAt == o.body.expiresAt
  }

  ghost predicate AllDelivered(s: State) {
    forall i :: 0 <= i < |s.trace| ==> Delivers(s, s.trace[i])
  }

  lemma CommitDelivers(cfg: Config, s: State, p: Pid)
    requires IsCommitting(cfg, s, p) && AllDelivered(s)
    ensures AllDelivered(AfterCommit(s, p))
  {
    var s' := AfterCommit(s, p);
    CommitGrown(cfg, s, p);
    if s.procs[p].tx.effect.Creating? { assert CreatingInv(cfg, s, p, s.procs[p]); }
    forall i | 0 <= i < |s'.trace| ensures Delivers(s', s'.trace[i]) {
      if i < |s.trace| { assert Delivers(s, s.trace[i]); }
    }
  }

  lemma SweepDelivers(cfg: Config, s: State, k: IdemKey, s': State)
    requires Next(cfg, s, SweepKey(k), s') && AllDelivered(s)
    ensures AllDelivered(s')
  {
    forall i | 0 <= i < |s'.trace| ensures Delivers(s', s'.trace[i]) {
      if i < |s.trace| { assert Delivers(s, s.trace[i]); }
    }
  }

  lemma StepDelivers(cfg: Config, s: State, step: Step, s': State)
    requires Inv(cfg, s) && AllDelivered(s) && Next(cfg, s, step, s')
    ensures AllDelivered(s')
  {
    if step.CommitTx? {
      CommitDelivers(cfg, s, step.p);
    } else if step.SweepKey? {
      SweepDelivers(cfg, s, step.k, s');
    } else {
      NextFacts(cfg, s, step, s');
      QuietDelivers(s, s');
    }
  }

  lemma QuietDelivers(s: State, s': State)
    requires AllDelivered(s) && LedgerStays(s, s') && s'.trace == s.trace
    ensures AllDelivered(s')
  {
    forall i | 0 <= i < |s'.trace| ensures Delivers(s', s'.trace[i]) { assert Delivers(s, s.trace[i]); }
  }

  lemma {:induction false} RunDelivered(cfg: Config, run: seq<State>, n: nat)
    requires Run(cfg, run) && n < |run|
    ensures AllDelivered(run[n])
  {
    if n > 0 {
      RunDelivered(cfg, run, n - 1);
      var step := StepTo(cfg, run, n);
      StepDelivers(cfg, run[n - 1], step, run[n]);
    }
  }

  /** A committed creation's document works exactly as long as its tunnel lives: the lookup accepts the
      secret it carries, for the tunnel it names, if and only if that is neither terminal nor elapsed. */
  lemma CommittedCredentialWorks(cfg: Config, run: seq<State>, n: nat, i: nat)
    requires Run(cfg, run) && n < |run| && i < |run[n].trace| && run[n].trace[i].TunnelCommitted?
    ensures Delivers(run[n], run[n].trace[i])
    ensures var o, s := run[n].trace[i], run[n];
            && (Accepted(s, o.pid, o.body.secret) <==>
                  s.tunnels[o.body.tunnel].status !in {Revoked, Expired} && s.now < o.body.expiresAt)
            && (Accepted(s, o.pid, o.body.secret) ==> s.tokens[o.pid].tunnel == o.body.tunnel)
  {
    RunDelivered(cfg, run, n);
    assert Delivers(run[n], run[n].trace[i]);
    RunInv(cfg, run, n);
    LookupIgnoresSweeps(cfg, run, n, run[n].trace[i].pid, run[n].trace[i].body.secret);
  }

  // ----- request gate -----

  /** Traffic is admitted only after the tunnel's own credential activated it under its own names,
      before any revoke or expiry, and within MaxTTL of the INSERT. */
  lemma GateSafe(cfg: Config, run: seq<State>, n: nat, t: TunnelId)
    requires Run(cfg, run) && n < |run| && Admits(run[n], t)
    ensures var s := run[n];
            && t in s.grants && s.grants[t].at <= s.now && s.grants[t].at < s.tunnels[t].expiresAt
            && Presented(s, s.grants[t].callback, t, s.grants[t].token)
    ensures t in run[n].log && NewProxy in run[n].log[t] && Revoke !in run[n].log[t] && Expire !in run[n].log[t]
    ensures run[n].now < run[n].tunnels[t].insertedAt + MaxTtl(cfg)
  {
    RunInv(cfg, run, n);
    assert Granted(run[n], t, run[n].grants[t]);
    FoldServing(run[n].log[t]);
  }

  /** The gate is open exactly for tunnels that were activated, neither revoked nor expired, and not elapsed. */
  lemma GateExact(cfg: Config, run: seq<State>, n: nat, t: TunnelId)
    requires Run(cfg, run) && n < |run|
    ensures Admits(run[n], t) <==>
              && t in run[n].tunnels && t in run[n].log
              && NewProxy in run[n].log[t] && Revoke !in run[n].log[t] && Expire !in run[n].log[t]
              && run[n].now < run[n].tunnels[t].expiresAt
  {
    RunInv(cfg, run, n);
    if t in run[n].tunnels {
      var log := run[n].log[t];
      LastEventDecides(log);
      FoldShape(log);
      if run[n].tunnels[t].status in {Active, Closed} { FoldServing(log); }
      assert log[|log| - 1] in log;
    }
  }

  ghost predicate Shut(s: State, t: TunnelId) {
    t in s.tunnels && (!NonTerminal(s.tunnels[t].status) || s.tunnels[t].expiresAt <= s.now)
  }

  lemma OpKeepsShut(maxTtl: nat, l: Ledger, op: Op, now: nat, t: TunnelId)
    requires Legal(maxTtl, l, op, now) && t in l.tunnels
    ensures var l' := Perform(l, op);
            && t in l'.tunnels && l'.tunnels[t].expiresAt == l.tunnels[t].expiresAt
            && (!NonTerminal(l.tunnels[t].status) ==> l'.tunnels[t].status == l.tunnels[t].status)
  {
    if op.TransitionOp? && op.t == t && TakenEdge(l.tunnels[t], op.e, op.clock).Some? {
      EdgeLeavesNonTerminal(l.tunnels[t].status, op.e);
    }
  }

  lemma CommitKeepsShut(cfg: Config, s: State, p: Pid, t: TunnelId)
    requires IsCommitting(cfg, s, p) && Shut(s, t)
    ensures Shut(AfterCommit(s, p), t)
  {
    CommitLegal(cfg, s, p);
    CommitPerforms(cfg, s, p);
    OpKeepsShut(MaxTtl(cfg), LedgerOf(s), OpOf(p, s.procs[p]), s.now, t);
  }

  lemma StepKeepsShut(cfg: Config, s: State, step: Step, s': State, t: TunnelId)
    requires Inv(cfg, s) && Next(cfg, s, step, s') && Shut(s, t)
    ensures Shut(s', t)
  {
    NextFacts(cfg, s, step, s');
    if step.CommitTx? { CommitKeepsShut(cfg, s, step.p, t); }
  }

  /** A gate shut by revocation, expiry or TTL stays shut for the rest of the run. */
  lemma {:induction false} ShutForever(cfg: Config, run: seq<State>, i: nat, j: nat, t: TunnelId)
    requires Run(cfg, run) && i <= j < |run| && Shut(run[i], t)
    ensures Shut(run[j], t) && !Admits(run[j], t)
  {
    if i < j {
      ShutForever(cfg, run, i, j - 1, t);
      var step := StepTo(cfg, run, j);
      StepKeepsShut(cfg, run[j - 1], step, run[j], t);
    }
  }

  // ----- linearisability -----

  /** One lifecycle call in a serial history: who made it, what it did, and when it took effect. */
  datatype Call = Call(caller: Pid, op: Op, at: nat)

  /** The ledger after calls made strictly one after the other. */
  function Replay(calls: seq<Call>): Ledger {
    if calls == [] then EMPTY else Perform(Replay(calls[..|calls| - 1]), calls[|calls| - 1].op)
  }

  /** The call is the one its caller's request asks for. */
  ghost predicate Serves(job: Job, op: Op) {
    match op
    case CreateOp(_, row, _, token) => job.CreateJob? && row.user == job.user && token.digest == Sha256(job.secret)
    case TransitionOp(t, e, _) => Asks(job, t, e)
    case RevokeOp(t, _) => Asks(job, t, Revoke)
    case ReapOp(_, _) => job.ReapJob?
  }

  /** Each call is legal when its turn comes, no caller acts twice, and turns follow the clock. */
  ghost predicate Serial(maxTtl: nat, calls: seq<Call>) {
    && (forall i :: 0 <= i < |calls| ==> Legal(maxTtl, Replay(calls[..i]), calls[i].op, calls[i].at))
    && (forall i, j :: 0 <= i < j < |calls| ==> calls[i].caller != calls[j].caller && calls[i].at <= calls[j].at)
  }

  /** Callers have committed, and asked for what was done on their behalf. */
  ghost predicate MadeBy(s: State, calls: seq<Call>) {
    forall i :: 0 <= i < |calls| ==>
      && calls[i].at <= s.now && calls[i].caller in s.procs
      && s.procs[calls[i].caller].tx.phase.Committed? && Serves(s.procs[calls[i].caller].job, calls[i].op)
  }

  lemma {:induction false} SerialExtend(maxTtl: nat, calls: seq<Call>, c: Call)
    requires Serial(maxTtl, calls) && Legal(maxTtl, Replay(calls), c.op, c.at)
    requires forall i :: 0 <= i < |calls| ==> calls[i].caller != c.caller && calls[i].at <= c.at
    ensures Serial(maxTtl, calls + [c]) && Replay(calls + [c]) == Perform(Replay(calls), c.op)
  {
    var all := calls + [c];
    assert all[..|calls|] == calls;
    forall i | 0 <= i < |all| ensures Legal(maxTtl, Replay(all[..i]), all[i].op, all[i].at) {
      if i < |calls| { assert all[..i] == calls[..i]; }
    }
  }

  lemma MadeByStays(cfg: Config, s: State, step: Step, s': State, calls: seq<Call>)
    requires Next(cfg, s, step, s') && MadeBy(s, calls)
    ensures MadeBy(s', calls)
  {
    NextFacts(cfg, s, step, s');
  }

  lemma CommitServes(cfg: Config, s: State, p: Pid)
    requires IsCommitting(cfg, s, p)
    ensures Serves(s.procs[p].job, OpOf(p, s.procs[p]))
  {
    var pr := s.procs[p];
    match pr.tx.effect
    case Idle =>
    case Creating(_, _, _, _, _) => assert CreatingInv(cfg, s, p, pr);
    case Moving(_, _, _, _, _, _) => assert MovingInv(s, p, pr);
    case Reaping(_, _) => assert ReapingInv(s, p, pr);
  }

  lemma {:induction false} CommitLinearises(cfg: Config, s: State, p: Pid, calls: seq<Call>)
    requires IsCommitting(cfg, s, p)
    requires Serial(MaxTtl(cfg), calls) && MadeBy(s, calls) && Replay(calls) == LedgerOf(s)
    ensures var calls' := calls + [Call(p, OpOf(p, s.procs[p]), s.now)];
            Serial(MaxTtl(cfg), calls') && Replay(calls') == LedgerOf(AfterCommit(s, p))
  {
    CommitLegal(cfg, s, p);
    CommitPerforms(cfg, s, p);
    SerialExtend(MaxTtl(cfg), calls, Call(p, OpOf(p, s.procs[p]), s.now));
  }

  lemma MadeByCommit(cfg: Config, s: State, p: Pid, calls: seq<Call>, c: Call)
    requires IsCommitting(cfg, s, p) && MadeBy(AfterCommit(s, p), calls)
    requires c == Call(p, OpOf(p, s.procs[p]), s.now)
    ensures MadeBy(AfterCommit(s, p), calls + [c])
  {
    CommitServes(cfg, s, p);
  }

  /** A step extends the serial history by the committing call, if it commits, and not otherwise. */
  lemma {:induction false} StepLinearises(cfg: Config, s: State, step: Step, s': State, calls: seq<Call>)
    returns (calls': seq<Call>)
    requires Inv(cfg, s) && Next(cfg, s, step, s')
    requires Serial(MaxTtl(cfg), calls) && MadeBy(s, calls) && Replay(calls) == LedgerOf(s)
    ensures Serial(MaxTtl(cfg), calls') && MadeBy(s', calls') && Replay(calls') == LedgerOf(s')
    ensures if step.CommitTx? then calls' == calls + [Call(step.p, OpOf(step.p, s.procs[step.p]), s.now)]
            else calls' == calls
  {
    MadeByStays(cfg, s, step, s', calls);
    calls' := calls;
    if step.CommitTx? {
      var p := step.p;
      assert s' == AfterCommit(s, p);
      CommitLinearises(cfg, s, p, calls);
      calls' := calls + [Call(p, OpOf(p, s.procs[p]), s.now)];
      MadeByCommit(cfg, s, p, calls, calls'[|calls|]);
    } else {
      NextFacts(cfg, s, step, s');
    }
  }

  lemma NothingCommitted(maxTtl: nat)
    ensures Serial(maxTtl, []) && MadeBy(INITIAL, []) && Replay([]) == LedgerOf(INITIAL)
  {}

  lemma NextLinearises(cfg: Config, run: seq<State>, n: nat, calls: seq<Call>) returns (calls': seq<Call>)
    requires Run(cfg, run) && 0 < n < |run|
    requires Serial(MaxTtl(cfg), calls) && MadeBy(run[n - 1], calls) && Replay(calls) == LedgerOf(run[n - 1])
    ensures Serial(MaxTtl(cfg), calls') && MadeBy(run[n], calls') && Replay(calls') == LedgerOf(run[n])
  {
    var step := StepTo(cfg, run, n);
    calls' := StepLinearises(cfg, run[n - 1], step, run[n], calls);
  }

  /** Every interleaving leaves the ledger of some serial history of whole calls, each made once, by a
      request that asked for it, in clock order. */
  lemma {:induction false} Linearisable(cfg: Config, run: seq<State>, n: nat) returns (calls: seq<Call>)
    requires Run(cfg, run) && n < |run|
    ensures Serial(MaxTtl(cfg), calls) && MadeBy(run[n], calls) && Replay(calls) == LedgerOf(run[n])
  {
    if n == 0 {
      calls := [];
      NothingCommitted(MaxTtl(cfg));
    } else {
      calls := Linearisable(cfg, run, n - 1);
      calls := NextLinearises(cfg, run, n, calls);
    }
  }

  /** The "status changed concurrently" error cannot happen: the row lock covers read to write. */
  lemma NeverChangedConcurrently(cfg: Config, run: seq<State>, n: nat, p: Pid)
    requires Run(cfg, run) && n < |run| && CanUpdateStatus(run[n], p)
    ensures !ChangedConcurrently(run[n], run[n].procs[p])
  {
    RunInv(cfg, run, n);
    assert ProcInv(cfg, run[n], p);
    assert PcInv(cfg, run[n], p, run[n].procs[p]);
  }

  /** A status write that commits follows an edge of the table from the committed status, whatever an
      unlocked read said before; a NewProxy one passed its clock check under the lock. */
  lemma CommittedEdge(cfg: Config, run: seq<State>, n: nat, p: Pid)
    requires Run(cfg, run) && n < |run| && p in run[n].procs && run[n].procs[p].tx.phase.Committing?
    requires run[n].procs[p].tx.effect.Moving? && run[n].procs[p].tx.effect.to.Some?
    ensures var e := run[n].procs[p].tx.effect;
            && e.t in run[n].tunnels && Edge(run[n].tunnels[e.t].status, e.e) == e.to
            && (e.e.NewProxy? ==> e.grant.Some? && e.grant.value.at < run[n].tunnels[e.t].expiresAt)
  {
    RunInv(cfg, run, n);
    assert ProcInv(cfg, run[n], p);
    assert MovingInv(run[n], p, run[n].procs[p]);
  }

  /** An owner's revocation commits only against that owner's tunnel. */
  lemma OwnerScoped(cfg: Config, run: seq<State>, n: nat, p: Pid)
    requires Run(cfg, run) && n < |run| && p in run[n].procs && run[n].procs[p].tx.phase.Committing?
    requires run[n].procs[p].job.RevokeJob? && run[n].procs[p].job.owner.Some?
    ensures var job, e := run[n].procs[p].job, run[n].procs[p].tx.effect;
            && e.Moving? && e.t == job.tunnel && e.revoked
            && e.t in run[n].tunnels && run[n].tunnels[e.t].user == job.owner.value
  {
    RunInv(cfg, run, n);
    var pr := run[n].procs[p];
    assert ProcInv(cfg, run[n], p) && EffectInv(cfg, run[n], p, pr);
    if pr.tx.effect.Moving? { assert MovingInv(run[n], p, pr); }
  }
}
