// The retention window is exactly the request age up to which every completed row answers its own
// fingerprint. Beyond it there is a run in which an old request completes a newer one's row.

module Retention {
  import opened Prelude
  import opened Schema
  import opened Lifecycle
  import opened ControlPlane
  import opened Invariant
  import opened Commits
  import opened Fingerprints

  /** In every run whose requests stay within `age`, completed rows answer their own fingerprint. */
  ghost predicate AlwaysMatched(cfg: Config, age: nat) {
    forall run: seq<State>, n: nat :: YoungRun(cfg, age, run) && n < |run| ==> RowsMatch(run[n])
  }

  /** Extends a run of young requests by one step. */
  lemma Extend(cfg: Config, age: nat, run: seq<State>, step: Step, s': State) returns (run': seq<State>)
    requires YoungRun(cfg, age, run) && Next(cfg, run[|run| - 1], step, s') && Within(age, s')
    ensures YoungRun(cfg, age, run') && |run'| > 0 && run'[|run'| - 1] == s'
  {
    run' := run + [s'];
    forall i | 0 < i < |run'| ensures StepAt(cfg, run', i) {
      if i < |run| { assert StepAt(cfg, run, i); }
    }
  }

  const KEY := IdemKey("token", "key")
  const JOB := CreateJob(UserId("user"), 1, "secret")
  const OLD_HASH := Fingerprint("old request")
  const NEW_HASH := Fingerprint("new request")
  const TUNNEL := TunnelId("t-a")

  function Holder(hash: Fingerprint, at: nat): Proc {
    Arriving(JOB, Some(KEY), hash).(pc := Handling, holds := true, reservedAt := at)
  }

  /** Request 0 reserved the key at time 0. */
  const RESERVED := INITIAL.(keys := map[KEY := IdemRow(OLD_HASH, 0, 0, None)], procs := map[0 := Holder(OLD_HASH, 0)])

  /** Its in-flight row was swept, and request 1 reserved the same key. */
  function Overtaken(now: nat): State {
    INITIAL.(now := now, keys := map[KEY := IdemRow(NEW_HASH, now, 1, None)],
             procs := map[0 := Holder(OLD_HASH, 0), 1 := Holder(NEW_HASH, now)])
  }

  /** Request 0 has counted its user's tunnels under the quota lock. */
  function Counted(cfg: Config, now: nat): State {
    var s := Overtaken(now);
    Put(s.(advisory := map[LockOf(cfg, JOB.user) := 0]), 0, At(Begun(s.procs[0], now, Idle), Inserting(0, 0)))
  }

  /** It has inserted its tunnel row. */
  function Inserted(cfg: Config, now: nat): State {
    var s := Counted(cfg, now);
    var row := Tunnel(JOB.user, Reserved, now, now, now + SECOND);
    Put(s.(rowLocks := map[TUNNEL := 0]), 0, At(Doing(s.procs[0], Creating(TUNNEL, row, None, false, None)), InTx))
  }

  /** It has stored the credential and the event as well. */
  function Written(cfg: Config, now: nat): State {
    var s := Inserted(cfg, now);
    var e := s.procs[0].tx.effect;
    var token := RuntimeToken(TUNNEL, Sha256(JOB.secret), e.row.expiresAt, None);
    Put(s, 0, Doing(s.procs[0], e.(token := Some(token), announced := true)))
  }

  /** It has completed the row that request 1 reserved, and asked to commit. */
  ghost predicate Crossed(age: nat, s: State) {
    && s.procs.Keys == {0, 1} && s.procs[0].key == Some(KEY) && s.procs[0].hash == OLD_HASH
    && s.procs[0].reservedAt + age >= s.now
    && s.procs[1].reservedAt + age >= s.now
    && s.procs[0].tx.phase.Committing? && s.procs[0].tx.effect.Creating?
    && s.procs[0].tx.effect.complete == Some(Stored(201, Some(Sealed(KEY, 201, AckReply(s.procs[0]).body))))
    && KEY in s.keys && s.keys[KEY].hash == NEW_HASH && s.trace == []
  }

  lemma ReservesFirst(cfg: Config, age: nat) returns (run: seq<State>)
    ensures YoungRun(cfg, age, run) && run[|run| - 1] == RESERVED
  {
    run := [INITIAL];
    var arrived := Put(INITIAL, 0, Arriving(JOB, Some(KEY), OLD_HASH));
    run := Extend(cfg, age, run, Arrive(0, JOB, Some(KEY), OLD_HASH), arrived);
    run := Extend(cfg, age, run, Reserve(0, true), RESERVED);
  }

  lemma IsSwept(cfg: Config, age: nat) returns (run: seq<State>)
    requires age > cfg.keyRetention
    ensures YoungRun(cfg, age, run) && run[|run| - 1] == RESERVED.(now := cfg.keyRetention + 1, keys := map[])
  {
    var late := RESERVED.(now := cfg.keyRetention + 1);
    run := ReservesFirst(cfg, age);
    run := Extend(cfg, age, run, Tick(cfg.keyRetention + 1), late);
    assert late.keys - {KEY} == map[];
    run := Extend(cfg, age, run, SweepKey(KEY), late.(keys := map[]));
  }

  lemma IsOvertaken(cfg: Config, age: nat) returns (run: seq<State>)
    requires age > cfg.keyRetention
    ensures YoungRun(cfg, age, run) && run[|run| - 1] == Overtaken(cfg.keyRetention + 1)
  {
    var now := cfg.keyRetention + 1;
    run := IsSwept(cfg, age);
    var swept := RESERVED.(now := now, keys := map[]);
    var arrived := Put(swept, 1, Arriving(JOB, Some(KEY), NEW_HASH));
    run := Extend(cfg, age, run, Arrive(1, JOB, Some(KEY), NEW_HASH), arrived);
    run := Extend(cfg, age, run, Reserve(1, true), Overtaken(now));
  }

  lemma CountsUnderLock(cfg: Config, age: nat) returns (run: seq<State>)
    requires Validated(cfg) && age > cfg.keyRetention
    ensures YoungRun(cfg, age, run) && run[|run| - 1] == Counted(cfg, cfg.keyRetention + 1)
  {
    var now := cfg.keyRetention + 1;
    run := IsOvertaken(cfg, age);
    var s := Overtaken(now);
    var begun := Put(s, 0, At(Begun(s.procs[0], now, Idle), QuotaLock));
    run := Extend(cfg, age, run, BeginCreate(0), begun);
    var locked := Put(begun.(advisory := map[LockOf(cfg, JOB.user) := 0]), 0, At(begun.procs[0], Counting));
    run := Extend(cfg, age, run, TakeQuotaLock(0), locked);
    assert NonTerminalOf(locked.tunnels, JOB.user) == {};
    run := Extend(cfg, age, run, CountTunnels(0), Counted(cfg, now));
  }

  lemma InsertsRow(cfg: Config, age: nat) returns (run: seq<State>)
    requires Validated(cfg) && age > cfg.keyRetention
    ensures YoungRun(cfg, age, run) && run[|run| - 1] == Inserted(cfg, cfg.keyRetention + 1)
  {
    run := CountsUnderLock(cfg, age);
    run := Extend(cfg, age, run, InsertTunnel(0, TUNNEL), Inserted(cfg, cfg.keyRetention + 1));
  }

  lemma WritesRows(cfg: Config, age: nat) returns (run: seq<State>)
    requires Validated(cfg) && age > cfg.keyRetention
    ensures YoungRun(cfg, age, run) && run[|run| - 1] == Written(cfg, cfg.keyRetention + 1)
  {
    var now := cfg.keyRetention + 1;
    run := InsertsRow(cfg, age);
    var s := Inserted(cfg, now);
    run := Extend(cfg, age, run, StoreToken(0), Put(s, 0, StoringToken(s.procs[0])));
    run := Extend(cfg, age, run, LogEvent(0), Written(cfg, now));
  }

  lemma SendsCommit(cfg: Config, age: nat) returns (run: seq<State>)
    requires Validated(cfg) && age > cfg.keyRetention
    ensures YoungRun(cfg, age, run) && Crossed(age, run[|run| - 1])
  {
    run := WritesRows(cfg, age);
    var s := Written(cfg, cfg.keyRetention + 1);
    var completed := Put(s.(keyLocks := map[KEY := 0]), 0, CompletingKey(s.procs[0]));
    run := Extend(cfg, age, run, CompleteKey(0), completed);
    run := Extend(cfg, age, run, SendCommit(0), Put(completed, 0, SendingCommit(completed.procs[0])));
  }

  lemma CommitCrosses(cfg: Config, age: nat, s: State)
    requires Crossed(age, s)
    ensures Next(cfg, s, CommitTx(0), AfterCommit(s, 0)) && Within(age, AfterCommit(s, 0))
            && !RowsMatch(AfterCommit(s, 0))
  {
    var body := AckReply(s.procs[0]).body;
    assert AfterCommit(s, 0).trace == [TunnelCommitted(0, Some(KEY), OLD_HASH, body)];
    assert !RowMatches(AfterCommit(s, 0), KEY);
  }

  /** A run with requests older than the window in which a row ends with another request's response. */
  lemma OldRequestMismatch(cfg: Config, age: nat) returns (run: seq<State>)
    requires Validated(cfg) && age > cfg.keyRetention
    ensures YoungRun(cfg, age, run) && !RowsMatch(run[|run| - 1])
  {
    run := SendsCommit(cfg, age);
    var s := run[|run| - 1];
    CommitCrosses(cfg, age, s);
    run := Extend(cfg, age, run, CommitTx(0), AfterCommit(s, 0));
  }

  /** Completed rows answer their own fingerprint in every run if and only if no request may outlive
      the retention window. */
  lemma RetentionIsTheLimit(cfg: Config, age: nat)
    requires Validated(cfg)
    ensures AlwaysMatched(cfg, age) <==> age <= cfg.keyRetention
  {
    if age <= cfg.keyRetention {
      forall run: seq<State>, n: nat | YoungRun(cfg, age, run) && n < |run| ensures RowsMatch(run[n]) {
        RunMatched(cfg, age, run, n);
      }
    } else {
      var run := OldRequestMismatch(cfg, age);
      assert !RowsMatch(run[|run| - 1]);
    }
  }
}
