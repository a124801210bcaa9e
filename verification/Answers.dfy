// What each step decides in a reachable state: which answer a request is given, when a statement
// succeeds, and what the bookkeeping and the sweepers leave behind.

module Answers {
  import opened Prelude
  import opened Schema
  import opened Lifecycle
  import opened ControlPlane
  import opened Invariant
  import opened Commits
  import opened Reachable

  ghost predicate Takes(cfg: Config, run: seq<State>, n: nat, step: Step, s': State) {
    Run(cfg, run) && n < |run| && Next(cfg, run[n], step, s')
  }

  predicate Told(s: State, p: Pid, status: int, retryAfter: bool, body: Body) {
    p in s.procs && s.procs[p].pc == Responded(Reply(status, retryAfter, body))
  }

  // ----- meeting an existing idempotency row -----

  /** Another fingerprint is refused for good; the same one in flight, or a row just gone, is asked to
      come back; a completed one is answered with its stored status and body, or 500 if none was kept. */
  ghost predicate RowAnswered(s: State, p: Pid, k: IdemKey, s': State)
    requires p in s.procs
  {
    && (k !in s.keys ==> Told(s', p, 409, true, OtherBody))
    && (k in s.keys && s.keys[k].hash != s.procs[p].hash ==> Told(s', p, 409, false, OtherBody))
    && (k in s.keys && s.keys[k].hash == s.procs[p].hash ==>
          match s.keys[k].result
          case None => Told(s', p, 409, true, OtherBody)
          case Some(Stored(_, None)) => Told(s', p, 500, false, OtherBody)
          case Some(Stored(status, Some(body))) => Told(s', p, status, false, body.plain))
  }

  lemma RowAnswer(cfg: Config, s: State, p: Pid, k: IdemKey, s': State)
    requires KeysInv(s) && Next(cfg, s, ServeExisting(p), s') && s.procs[p].key == Some(k)
    ensures RowAnswered(s, p, k, s')
  {
    if k in s.keys { assert RowInv(s, k); }
  }

  lemma ExistingRowAnswer(cfg: Config, run: seq<State>, n: nat, p: Pid, k: IdemKey, s': State)
    requires Takes(cfg, run, n, ServeExisting(p), s') && run[n].procs[p].key == Some(k)
    ensures RowAnswered(run[n], p, k, s')
  {
    RunInv(cfg, run, n);
    RowAnswer(cfg, run[n], p, k, s');
  }

  // ----- creation -----

  /** 400 exactly for a negative lifetime or one beyond MaxTTL; otherwise a transaction begins. */
  lemma TtlDecides(cfg: Config, run: seq<State>, n: nat, p: Pid, s': State)
    requires Takes(cfg, run, n, BeginCreate(p), s')
    ensures var ttl := run[n].procs[p].job.ttlSeconds;
            if ttl < 0 || ttl > cfg.maxTtlSeconds then Told(s', p, 400, false, OtherBody)
            else s'.procs[p].pc == QuotaLock && s'.procs[p].tx == Tx(Open, run[n].now, Idle)
  {}

  /** 403 exactly when the user's committed tunnels that are neither expired nor revoked have reached
      the limit; otherwise the creation goes on. */
  lemma QuotaDecides(cfg: Config, run: seq<State>, n: nat, p: Pid, s': State)
    requires Takes(cfg, run, n, CountTunnels(p), s')
    ensures var s, u := run[n], run[n].procs[p].job.user;
            var counted := set t | t in s.tunnels && s.tunnels[t].user == u
                                   && s.tunnels[t].status !in {Expired, Revoked};
            if |counted| >= cfg.maxConcurrent then Told(s', p, 403, false, OtherBody)
            else s'.procs[p].pc == Inserting(|counted|, 0)
  {
    var s, u := run[n], run[n].procs[p].job.user;
    var counted := set t | t in s.tunnels && s.tunnels[t].user == u && s.tunnels[t].status !in {Expired, Revoked};
    assert counted == NonTerminalOf(s.tunnels, u);
  }

  /** The row a creation inserts is its user's, reserved, and expires from now after the lifetime asked
      for, or without one after an hour or MaxTTL, whichever is shorter. */
  lemma InsertedRow(cfg: Config, run: seq<State>, n: nat, p: Pid, id: TunnelId, s': State)
    requires Takes(cfg, run, n, InsertTunnel(p, id), s')
    ensures var pr := run[n].procs[p];
            var ttl := pr.job.ttlSeconds;
            var seconds := if ttl != 0 then ttl else if cfg.maxTtlSeconds < 3600 then cfg.maxTtlSeconds else 3600;
            && s'.procs[p].tx.effect.Creating? && s'.procs[p].tx.effect.id == id && id !in run[n].tunnels
            && s'.procs[p].tx.effect.row == Tunnel(pr.job.user, Reserved, pr.tx.begun, run[n].now,
                 run[n].now + seconds * 1_000_000)
  {}

  /** A taken ID is tried again until the third, which is answered 500. */
  lemma ConflictDecides(cfg: Config, run: seq<State>, n: nat, p: Pid, id: TunnelId, s': State)
    requires Takes(cfg, run, n, InsertConflicts(p, id), s')
    ensures var attempt := run[n].procs[p].pc.attempt;
            if attempt < 2 then s'.procs[p].pc == run[n].procs[p].pc.(attempt := attempt + 1)
            else Told(s', p, 500, false, OtherBody)
  {}

  /** An acknowledged commit is answered 201 with the committed document, or 204 for a revocation. */
  lemma AckAnswer(cfg: Config, run: seq<State>, n: nat, p: Pid, s': State)
    requires Takes(cfg, run, n, AckCommit(p), s') && FromApi(run[n].procs[p].job)
    ensures s'.procs[p].pc.Responded?
    ensures run[n].procs[p].pc.onAck.status == 201 ==>
              exists i :: 0 <= i < |run[n].trace|
                && Backs(run[n].trace[i], p, run[n].procs[p].key, s'.procs[p].pc.reply.body)
    ensures s'.procs[p].pc.reply == run[n].procs[p].pc.onAck
  {
    RunInv(cfg, run, n);
    assert ProcInv(cfg, run[n], p);
    if run[n].procs[p].pc.onAck.status == 201 {
      assert Backed(run[n].trace, p, run[n].procs[p].key, run[n].procs[p].pc.onAck.body);
    }
  }

  /** … the answer having been fixed when the commit was sent, for a transaction that is whole. */
  lemma CommitPrepares(cfg: Config, run: seq<State>, n: nat, p: Pid, s': State)
    requires Takes(cfg, run, n, SendCommit(p), s')
    ensures var pr, e := run[n].procs[p], run[n].procs[p].tx.effect;
            && s'.procs[p].pc.AwaitingCommit? && s'.procs[p].tx == Tx(Committing, pr.tx.begun, e)
            && (pr.job.CreateJob? <==> s'.procs[p].pc.onAck.status == 201)
            && (pr.job.CreateJob? ==>
                  && e.Creating? && e.token.Some? && e.announced && (pr.key.Some? ==> e.complete.Some?)
                  && s'.procs[p].pc.onAck == Reply(201, false, TunnelBody(e.id, e.row.expiresAt, pr.job.secret)))
            && (pr.job.RevokeJob? ==> s'.procs[p].pc.onAck == Reply(204, false, OtherBody) && e.Moving? && e.revoked)
  {
    RunInv(cfg, run, n);
    var pr := run[n].procs[p];
    assert ProcInv(cfg, run[n], p) && EffectInv(cfg, run[n], p, pr);
    match pr.tx.effect
    case Creating(_, _, _, _, _) => assert CreatingInv(cfg, run[n], p, pr);
    case Moving(_, _, _, _, _, _) => assert MovingInv(run[n], p, pr);
    case Reaping(_, _) => assert ReapingInv(run[n], p, pr);
    case Idle =>
  }

  // ----- revocation and callbacks -----

  /** A revocation misses, and is answered 404, only if its owner has no such tunnel. */
  lemma RevokeMisses(cfg: Config, run: seq<State>, n: nat, p: Pid, s': State)
    requires Takes(cfg, run, n, LockMisses(p), s') && run[n].procs[p].job.RevokeJob?
    ensures Told(s', p, 404, false, OtherBody)
    ensures var job := run[n].procs[p].job;
            job.tunnel !in run[n].tunnels || (job.owner.Some? && run[n].tunnels[job.tunnel].user != job.owner.value)
  {
    RunInv(cfg, run, n);
    assert ProcInv(cfg, run[n], p) && PcInv(cfg, run[n], p, run[n].procs[p]);
  }

  /** … and otherwise takes the row once it is free. */
  lemma RevokeFinds(cfg: Config, run: seq<State>, n: nat, p: Pid)
    requires Run(cfg, run) && n < |run| && p in run[n].procs && run[n].procs[p].tx.phase.Open?
    requires run[n].procs[p].pc.LockingRow? && run[n].procs[p].job.RevokeJob?
    ensures var job := run[n].procs[p].job;
            (exists s' :: Next(cfg, run[n], LockRow(p), s')) <==>
              && job.tunnel in run[n].tunnels && job.tunnel !in run[n].rowLocks
              && (job.owner.Some? ==> run[n].tunnels[job.tunnel].user == job.owner.value)
  {
    RunInv(cfg, run, n);
    var s := run[n];
    assert ProcInv(cfg, s, p) && PcInv(cfg, s, p, s.procs[p]);
    if CanLockRow(s, p) {
      var t := s.procs[p].pc.t;
      assert Next(cfg, s, LockRow(p), Put(s.(rowLocks := s.rowLocks[t := p]), p, TakingRow(s, s.procs[p])));
    }
  }

  /** A NewProxy callback whose credential was found goes on exactly if both names are its tunnel's. */
  lemma CallbackMatches(cfg: Config, run: seq<State>, n: nat, p: Pid, r: nat, s': State)
    requires Takes(cfg, run, n, LookupToken(p, r), s')
    ensures var job, t := run[n].procs[p].job, run[n].tokens[r].tunnel;
            if job.proxyName == t && job.subdomain == t
            then s'.procs[p].pc == LockingRow(t, NewProxy, Some(r)) && s'.procs[p].tx.phase.Open?
            else s'.procs[p].pc == Gone(None) && s'.procs[p].tx == run[n].procs[p].tx
  {}

  /** A CloseProxy callback attempts the transition exactly if it reads an active tunnel. */
  lemma CloseReads(cfg: Config, run: seq<State>, n: nat, p: Pid, s': State)
    requires Takes(cfg, run, n, ReadStatus(p), s')
    ensures var t := run[n].procs[p].job.proxyName;
            if t in run[n].tunnels && run[n].tunnels[t].status == Active
            then s'.procs[p].pc == LockingRow(t, CloseProxy, None) && s'.procs[p].tx.phase.Open?
            else s'.procs[p].pc == Gone(None) && s'.procs[p].tx == run[n].procs[p].tx
  {}

  /** Under the row lock an activation is refused exactly if the tunnel has elapsed by now. */
  lemma ClockDecides(cfg: Config, run: seq<State>, n: nat, p: Pid, s': State)
    requires Takes(cfg, run, n, CheckClock(p), s')
    ensures var t, s := run[n].procs[p].tx.effect.t, run[n];
            if s.tunnels[t].expiresAt <= s.now then s'.procs[p].pc == Gone(None)
            else if s.tunnels[t].status == Active then s'.procs[p].pc == InTx && s'.procs[p].tx == s.procs[p].tx
            else s'.procs[p].pc == s.procs[p].pc.(checkedAt := Some(s.now))
  {
    RunInv(cfg, run, n);
    assert ProcInv(cfg, run[n], p) && PcInv(cfg, run[n], p, run[n].procs[p]);
    assert MovingInv(run[n], p, run[n].procs[p]);
  }

  /** An activation is written exactly for a reserved or closed tunnel. */
  lemma ActivationWritten(cfg: Config, run: seq<State>, n: nat, p: Pid, s': State)
    requires Takes(cfg, run, n, UpdateStatus(p), s') && run[n].procs[p].job.NewProxyJob?
    ensures var t, s := run[n].procs[p].job.proxyName, run[n];
            && t in s.tunnels && s'.procs[p].tx.phase.Open?
            && if s.tunnels[t].status in {Reserved, Closed}
               then s'.procs[p].pc == InTx && Writes(s'.procs[p].tx.effect, t, Active)
               else s'.procs[p].pc == Gone(None)
  {
    StatusRead(cfg, run, n, p);
  }

  /** A closing is written exactly for an active tunnel, whatever the callback read before. */
  lemma ClosingWritten(cfg: Config, run: seq<State>, n: nat, p: Pid, s': State)
    requires Takes(cfg, run, n, UpdateStatus(p), s') && run[n].procs[p].job.CloseProxyJob?
    ensures var t, s := run[n].procs[p].job.proxyName, run[n];
            && t in s.tunnels && s'.procs[p].tx.phase.Open?
            && if s.tunnels[t].status == Active
               then s'.procs[p].pc == InTx && Writes(s'.procs[p].tx.effect, t, Closed)
               else s'.procs[p].pc == Gone(None)
  {
    StatusRead(cfg, run, n, p);
  }

  /** A revocation is written exactly for a live tunnel, and goes on to the credentials in any case. */
  lemma RevocationWritten(cfg: Config, run: seq<State>, n: nat, p: Pid, s': State)
    requires Takes(cfg, run, n, UpdateStatus(p), s') && run[n].procs[p].job.RevokeJob?
    ensures var t, s := run[n].procs[p].job.tunnel, run[n];
            && t in s.tunnels && s'.procs[p].pc == InTx && s'.procs[p].tx.phase.Open?
            && if s.tunnels[t].status in {Reserved, Active, Closed}
               then Writes(s'.procs[p].tx.effect, t, Revoked)
               else s'.procs[p].tx == s.procs[p].tx
  {
    StatusRead(cfg, run, n, p);
  }

  predicate Writes(e: Effect, t: TunnelId, to: Status) {
    e.Moving? && e.t == t && e.to == Some(to)
  }

  /** What a process holding its row has read is still the row's status. */
  lemma StatusRead(cfg: Config, run: seq<State>, n: nat, p: Pid)
    requires Run(cfg, run) && n < |run| && p in run[n].procs && CanUpdateStatus(run[n], p)
    ensures var s, pr := run[n], run[n].procs[p];
            && s.tunnels[pr.tx.effect.t].status == pr.pc.read && Asks(pr.job, pr.tx.effect.t, pr.tx.effect.e)
  {
    RunInv(cfg, run, n);
    assert ProcInv(cfg, run[n], p) && PcInv(cfg, run[n], p, run[n].procs[p]);
    assert MovingInv(run[n], p, run[n].procs[p]);
  }

  // ----- reaper -----

  /** Before it logs, a reaper can take every unlocked row past expiry at its start and still live. */
  lemma ReaperReaches(cfg: Config, run: seq<State>, n: nat, p: Pid, t: TunnelId)
    requires Run(cfg, run) && n < |run| && p in run[n].procs
    requires run[n].procs[p].tx.phase.Open? && run[n].procs[p].tx.effect.Reaping? && run[n].procs[p].pc.InTx?
    requires run[n].procs[p].tx.effect.done == {}
    ensures (exists s' :: Next(cfg, run[n], ReapRow(p, t), s')) <==>
              && t in run[n].tunnels && t !in run[n].rowLocks
              && run[n].tunnels[t].status !in {Expired, Revoked}
              && run[n].tunnels[t].expiresAt < run[n].procs[p].tx.begun
    ensures forall s' :: Next(cfg, run[n], ReapRow(p, t), s') ==>
              s'.procs[p].tx.effect == Reaping(run[n].procs[p].tx.effect.rows + {t}, {}) && HoldsRow(s', p, t)
  {
    var s := run[n];
    if CanReapRow(s, p, t) {
      assert Next(cfg, s, ReapRow(p, t), Put(s.(rowLocks := s.rowLocks[t := p]), p, ReapingRow(s.procs[p], t)));
    }
  }

  /** A committing reaper expires exactly the rows it took and logs one Expire for each. */
  lemma ReapCommits(cfg: Config, run: seq<State>, n: nat, p: Pid)
    requires Run(cfg, run) && n < |run| && p in run[n].procs
    requires run[n].procs[p].tx.phase.Committing? && run[n].procs[p].tx.effect.Reaping?
    ensures var s, s', rows := run[n], AfterCommit(run[n], p), run[n].procs[p].tx.effect.rows;
            && s'.tunnels.Keys == s.tunnels.Keys && s'.issued == s.issued && s'.log.Keys == s.log.Keys
            && forall t :: t in s.tunnels ==>
                 && t in s.log
                 && s'.tunnels[t] == (if t in rows then s.tunnels[t].(status := Expired) else s.tunnels[t])
                 && s'.log[t] == (if t in rows then s.log[t] + [Expire] else s.log[t])
  {
    RunInv(cfg, run, n);
    assert ProcInv(cfg, run[n], p);
    assert ReapingInv(run[n], p, run[n].procs[p]);
    assert run[n].log.Keys + run[n].procs[p].tx.effect.rows == run[n].log.Keys;
  }

  // ----- bookkeeping and sweepers -----

  /** A request that failed or panicked releases its in-flight row, so that the key can be reserved
      again; a completed row stays as it is. */
  lemma FailureReleases(cfg: Config, run: seq<State>, n: nat, step: Step, k: IdemKey, s': State)
    requires Takes(cfg, run, n, step, s')
    requires (step.Persist? && !(200 <= run[n].procs[step.p].pc.reply.status < 300)) || step.ReleaseAfterPanic?
    requires run[n].procs[step.p].key == Some(k)
    ensures k in run[n].keys && run[n].keys[k].result.None? ==> k !in s'.keys
    ensures k in run[n].keys && run[n].keys[k].result.Some? ==> k in s'.keys && s'.keys[k] == run[n].keys[k]
    ensures forall j | j != k ::
              (j in s'.keys <==> j in run[n].keys) && (j in s'.keys ==> s'.keys[j] == run[n].keys[j])
  {}

  /** A free key can be reserved by whoever arrives with it, under that request's fingerprint. */
  lemma FreeKeyReserved(cfg: Config, run: seq<State>, n: nat, q: Pid, k: IdemKey)
    requires Run(cfg, run) && n < |run| && q in run[n].procs && run[n].procs[q].pc.Arrived?
    requires run[n].procs[q].key == Some(k)
    ensures (exists s' :: Next(cfg, run[n], Reserve(q, true), s')) <==> k !in run[n].keys
    ensures forall s' :: Next(cfg, run[n], Reserve(q, true), s') ==>
              && s'.keys == run[n].keys[k := IdemRow(run[n].procs[q].hash, run[n].now, q, None)]
              && s'.procs[q].pc == Handling && s'.procs[q].holds
  {
    var s := run[n];
    if CanReserve(s, q) {
      assert Next(cfg, s, Reserve(q, true), Put(s.(keys := WithReservation(s, q)), q, Reserving(s, s.procs[q], true)));
    }
  }

  /** A successful response still in flight is recorded with its status and, if it can be cached, its
      body, sealed under key and status. */
  lemma SuccessRecorded(cfg: Config, run: seq<State>, n: nat, p: Pid, cacheable: bool, k: IdemKey, s': State)
    requires Takes(cfg, run, n, Persist(p, cacheable), s') && run[n].procs[p].key == Some(k)
    requires 200 <= run[n].procs[p].pc.reply.status < 300 && k in run[n].keys && run[n].keys[k].result.None?
    ensures var r := run[n].procs[p].pc.reply;
            s'.keys == run[n].keys[k := run[n].keys[k].(result :=
              Some(Stored(r.status, if cacheable then Some(Sealed(k, r.status, r.body)) else None)))]
  {}

  /** Keys go only past their retention, credentials only past theirs since revocation or expiry. */
  lemma SweepsOnlyOld(cfg: Config, run: seq<State>, n: nat, step: Step, s': State)
    requires Takes(cfg, run, n, step, s')
    ensures step.SweepKey? ==>
              && step.k in run[n].keys && run[n].keys[step.k].createdAt + cfg.keyRetention < run[n].now
              && s'.keys == run[n].keys - {step.k} && s'.tokens == run[n].tokens
    ensures step.SweepToken? ==>
              && step.r in run[n].tokens && s'.tokens == run[n].tokens - {step.r} && s'.keys == run[n].keys
              && (match run[n].tokens[step.r].revokedAt
                  case Some(at) => at + cfg.tokenRetention < run[n].now
                  case None => run[n].tokens[step.r].expiresAt + cfg.tokenRetention < run[n].now)
  {}
}
