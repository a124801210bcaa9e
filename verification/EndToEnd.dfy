// The retrying client against the control plane, over a network that may lose or delay a request,
// lose or truncate a response, or answer in the server's place with anything but a 201.

module EndToEnd {
  import opened Prelude
  import opened Schema
  import opened ControlPlane
  import opened Invariant
  import opened Reachable
  import opened Steps
  import opened Guarantees
  import opened Answers
  import opened RetryClient

  /** One CreateTunnelCtx call: its request, its automaton, the exchange it waits on, requests sent so far. */
  datatype Call = Call(
    job: Job, key: Option<IdemKey>, hash: Fingerprint,
    client: Client<Body>, waiting: Option<Pid>, sent: seq<Pid>)

  datatype Joint = Joint(server: State, call: Call)

  /** `cut` says whether the caller's context ends during the pause that may follow. A lost request is a
      process that never gets a turn, a delayed one a process that gets it late. */
  datatype Move =
    | Serve(step: Step)
    | Send(p: Pid)
    | Receive(whole: bool, cut: bool)
    | Intercepted(status: int, retryAfter: RetryAfter, cut: bool)
    | Lose(cut: bool)

  function Read(r: Reply, whole: bool): Answer<Body> {
    Answered(r.status, if r.retryAfter then Seconds(1) else Absent, if whole then Some(r.body) else None)
  }

  function Heard(c: Call, a: Answer<Body>, cut: bool): Call
    requires Ready(c.client)
  {
    c.(client := OnAnswer(c.key.Some?, c.client, a, cut), waiting := None)
  }

  predicate Waiting(c: Call) {
    Ready(c.client) && c.waiting.Some?
  }

  ghost predicate JointNext(cfg: Config, j: Joint, move: Move, j': Joint) {
    match move
    case Serve(step) => Next(cfg, j.server, step, j'.server) && j'.call == j.call
    case Send(p) =>
      && Ready(j.call.client) && j.call.waiting.None?
      && Next(cfg, j.server, Arrive(p, j.call.job, j.call.key, j.call.hash), j'.server)
      && j'.call == j.call.(waiting := Some(p), sent := j.call.sent + [p])
    case Receive(whole, cut) =>
      && Waiting(j.call) && j.call.waiting.value in j.server.procs
      && Visible(j.server.procs[j.call.waiting.value].pc).Some?
      && j' == Joint(j.server, Heard(j.call, Read(Visible(j.server.procs[j.call.waiting.value].pc).value, whole), cut))
    case Intercepted(status, retryAfter, cut) =>
      Waiting(j.call) && status != 201 && j' == Joint(j.server, Heard(j.call, Answered(status, retryAfter, None), cut))
    case Lose(cut) => Waiting(j.call) && j' == Joint(j.server, Heard(j.call, Failed, cut))
  }

  /** The call begins in any reachable state of the server, whatever else is going on there. */
  ghost predicate Begins(cfg: Config, j: Joint) {
    && (exists run :: Run(cfg, run) && run[|run| - 1] == j.server)
    && j.call.job.CreateJob? && j.call.client == Sending(1, 1) && j.call.waiting.None? && j.call.sent == []
  }

  ghost predicate JointMoves(cfg: Config, j: Joint, j': Joint) {
    exists move :: JointNext(cfg, j, move, j')
  }

  ghost predicate JointStepAt(cfg: Config, run: seq<Joint>, i: int)
    requires 0 < i < |run|
  {
    JointMoves(cfg, run[i - 1], run[i])
  }

  ghost predicate JointRun(cfg: Config, run: seq<Joint>) {
    && |run| > 0 && Begins(cfg, run[0])
    && forall i :: 0 < i < |run| ==> JointStepAt(cfg, run, i)
  }

  // ----- the call -----

  ghost predicate Returns(trace: seq<Obs>, c: Call, body: Body) {
    exists i :: 0 <= i < |c.sent| && Backed(trace, c.sent[i], c.key, body)
  }

  /** Requests sent and attempts left never exceed the client's allowance. */
  ghost predicate Counted(c: Call) {
    && |c.sent| + Left(c.key.Some?, c.client) - (if c.waiting.Some? then 1 else 0) <= (if c.key.Some? then 6 else 1)
    && (c.waiting.Some? || c.client.Returned? ==> |c.sent| > 0)
    && (c.waiting.Some? ==> Ready(c.client) && c.waiting.value == c.sent[|c.sent| - 1])
    && (Ready(c.client) || c.client.Returned?)
  }

  ghost predicate CallInv(j: Joint) {
    && Counted(j.call)
    && (forall i :: 0 <= i < |j.call.sent| ==>
          j.call.sent[i] in j.server.procs && j.server.procs[j.call.sent[i]].key == j.call.key)
    && (j.call.client.Returned? && j.call.client.tunnel.Some? ==>
          Returns(j.server.trace, j.call, j.call.client.tunnel.value))
  }

  lemma ReturnsGrows(a: seq<Obs>, b: seq<Obs>, c: Call, body: Body)
    requires a <= b && Returns(a, c, body)
    ensures Returns(b, c, body)
  {
    var i :| 0 <= i < |c.sent| && Backed(a, c.sent[i], c.key, body);
    BackedGrows(a, b, c.sent[i], c.key, body);
  }

  lemma ServeKeepsCall(cfg: Config, j: Joint, step: Step, j': Joint)
    requires CallInv(j) && Next(cfg, j.server, step, j'.server) && j'.call == j.call
    ensures CallInv(j')
  {
    var s, s' := j.server, j'.server;
    NextFacts(cfg, s, step, s');
    forall i | 0 <= i < |j.call.sent| ensures j.call.sent[i] in s'.procs && s'.procs[j.call.sent[i]].key == j.call.key {
      KeyStays(s, step, s', j.call.sent[i]);
    }
    if j.call.client.Returned? && j.call.client.tunnel.Some? {
      ReturnsGrows(s.trace, s'.trace, j.call, j.call.client.tunnel.value);
    }
  }

  lemma KeyStays(s: State, step: Step, s': State, p: Pid)
    requires StepFacts(s, step, s') && p in s.procs
    requires step.Reserve? && step.p in s.procs && step.p in s'.procs ==> s'.procs[step.p].key == s.procs[step.p].key
    ensures p in s'.procs && s'.procs[p].key == s.procs[p].key
  {
    if Acts(step, p) && !step.Reserve? { assert Continues(s.procs[p], s'.procs[p]); }
  }

  /** The client acts only on what a request of its own was answered. */
  lemma HeardKeepsCall(j: Joint, a: Answer<Body>, cut: bool)
    requires CallInv(j) && Waiting(j.call)
    requires Is201(a) && a.decoded.Some? ==> Backed(j.server.trace, j.call.waiting.value, j.call.key, a.decoded.value)
    ensures CallInv(Joint(j.server, Heard(j.call, a, cut)))
  {
    LeftDecreases(j.call.key.Some?, j.call.client, a, cut);
    var c' := Heard(j.call, a, cut);
    if c'.client.Returned? && c'.client.tunnel.Some? {
      assert Backed(j.server.trace, c'.sent[|c'.sent| - 1], c'.key, c'.client.tunnel.value);
    }
  }

  lemma ReceiveBacked(cfg: Config, j: Joint)
    requires Inv(cfg, j.server) && CallInv(j) && Waiting(j.call)
    requires Visible(j.server.procs[j.call.waiting.value].pc).Some?
    ensures var r := Visible(j.server.procs[j.call.waiting.value].pc).value;
            r.status == 201 ==> Backed(j.server.trace, j.call.waiting.value, j.call.key, r.body)
  {
    assert ProcInv(cfg, j.server, j.call.waiting.value);
  }

  lemma MoveKeepsCall(cfg: Config, j: Joint, move: Move, j': Joint)
    requires Inv(cfg, j.server) && CallInv(j) && JointNext(cfg, j, move, j')
    ensures CallInv(j')
  {
    match move
    case Serve(step) => ServeKeepsCall(cfg, j, step, j');
    case Send(p) =>
    case Receive(whole, cut) =>
      ReceiveBacked(cfg, j);
      HeardKeepsCall(j, Read(Visible(j.server.procs[j.call.waiting.value].pc).value, whole), cut);
    case Intercepted(status, retryAfter, cut) => HeardKeepsCall(j, Answered(status, retryAfter, None), cut);
    case Lose(cut) => HeardKeepsCall(j, Failed, cut);
  }

  /** A joint move moves the server by a step of its own, or leaves it. */
  lemma MoveKeepsServer(cfg: Config, j: Joint, move: Move, j': Joint)
    requires Inv(cfg, j.server) && AllDelivered(j.server) && JointNext(cfg, j, move, j')
    ensures Inv(cfg, j'.server) && AllDelivered(j'.server)
  {
    if move.Serve? || move.Send? {
      var step := if move.Serve? then move.step else Arrive(move.p, j.call.job, j.call.key, j.call.hash);
      NextKept(cfg, j.server, step, j'.server);
      StepDelivers(cfg, j.server, step, j'.server);
    }
  }

  lemma {:induction false} JointInv(cfg: Config, run: seq<Joint>, n: nat)
    requires JointRun(cfg, run) && n < |run|
    ensures Inv(cfg, run[n].server) && AllDelivered(run[n].server) && CallInv(run[n])
    ensures run[n].call.key == run[0].call.key && run[n].call.job.CreateJob?
  {
    if n == 0 {
      var server :| Run(cfg, server) && server[|server| - 1] == run[0].server;
      RunInv(cfg, server, |server| - 1);
      RunDelivered(cfg, server, |server| - 1);
    } else {
      JointInv(cfg, run, n - 1);
      assert JointStepAt(cfg, run, n);
      var move :| JointNext(cfg, run[n - 1], move, run[n]);
      MoveKeepsServer(cfg, run[n - 1], move, run[n]);
      MoveKeepsCall(cfg, run[n - 1], move, run[n]);
    }
  }

  // ----- a key not used before -----

  /** No row and no commit under the key. */
  ghost predicate Unused(s: State, k: IdemKey) {
    k !in s.keys && (forall i :: 0 <= i < |s.trace| ==> !CommitUnder(s.trace[i], k))
  }

  /** The key was unused at time `start`, when the trace had length `base`. */
  ghost predicate FreshSince(cfg: Config, start: nat, base: nat, s: State, k: IdemKey) {
    && start <= s.now && base <= |s.trace|
    && (k in s.keys ==> start <= s.keys[k].createdAt)
    && (forall i :: 0 <= i < base ==> !CommitUnder(s.trace[i], k))
    && (forall i :: base <= i < |s.trace| && s.trace[i].ReplySwept? && s.trace[i].swept == k ==>
          start + cfg.keyRetention < s.trace[i].at <= s.now)
  }

  lemma FreshKept(cfg: Config, start: nat, base: nat, s: State, step: Step, s': State, k: IdemKey)
    requires FreshSince(cfg, start, base, s, k) && Next(cfg, s, step, s') && StepFacts(s, step, s')
    ensures FreshSince(cfg, start, base, s', k)
  {
    if step.CommitTx? {
      FreshAfterCommit(cfg, start, base, s, step, s', k);
    } else if step.SweepKey? {
      FreshAfterSweep(cfg, start, base, s, step, s', k);
    } else if step.Reserve? {
      FreshAfterReserve(cfg, start, base, s, step, s', k);
    } else if step.Persist? || step.ReleaseAfterPanic? {
      FreshAfterRow(cfg, start, base, s, step, s', k);
    }
  }

  lemma FreshAfterCommit(cfg: Config, start: nat, base: nat, s: State, step: Step, s': State, k: IdemKey)
    requires step.CommitTx? && FreshSince(cfg, start, base, s, k) && Next(cfg, s, step, s')
    ensures FreshSince(cfg, start, base, s', k)
  {}

  lemma FreshAfterSweep(cfg: Config, start: nat, base: nat, s: State, step: Step, s': State, k: IdemKey)
    requires step.SweepKey? && FreshSince(cfg, start, base, s, k) && Next(cfg, s, step, s')
    ensures FreshSince(cfg, start, base, s', k)
  {}

  lemma FreshAfterReserve(cfg: Config, start: nat, base: nat, s: State, step: Step, s': State, k: IdemKey)
    requires step.Reserve? && FreshSince(cfg, start, base, s, k) && Next(cfg, s, step, s')
    ensures FreshSince(cfg, start, base, s', k)
  {}

  lemma FreshAfterRow(cfg: Config, start: nat, base: nat, s: State, step: Step, s': State, k: IdemKey)
    requires step.Persist? || step.ReleaseAfterPanic?
    requires FreshSince(cfg, start, base, s, k) && Next(cfg, s, step, s')
    ensures FreshSince(cfg, start, base, s', k)
  {}

  lemma {:induction false} JointFresh(cfg: Config, run: seq<Joint>, n: nat, k: IdemKey)
    requires JointRun(cfg, run) && n < |run| && Unused(run[0].server, k)
    ensures FreshSince(cfg, run[0].server.now, |run[0].server.trace|, run[n].server, k)
  {
    if n > 0 {
      JointFresh(cfg, run, n - 1, k);
      assert JointStepAt(cfg, run, n);
      var move :| JointNext(cfg, run[n - 1], move, run[n]);
      if move.Serve? || move.Send? {
        var c := run[n - 1].call;
        var step := if move.Serve? then move.step else Arrive(move.p, c.job, c.key, c.hash);
        NextFacts(cfg, run[n - 1].server, step, run[n].server);
        FreshKept(cfg, run[0].server.now, |run[0].server.trace|, run[n - 1].server, step, run[n].server, k);
      }
    }
  }

  /** Within retention of its first use a key is behind at most one commit, whoever sends it. */
  lemma OneCommitPerKey(cfg: Config, run: seq<Joint>, n: nat, k: IdemKey, i: nat, j: nat)
    requires JointRun(cfg, run) && n < |run| && Unused(run[0].server, k)
    requires run[n].server.now <= run[0].server.now + cfg.keyRetention
    requires i <= j < |run[n].server.trace|
    requires CommitUnder(run[n].server.trace[i], k) && CommitUnder(run[n].server.trace[j], k)
    ensures i == j
  {
    JointInv(cfg, run, n);
    JointFresh(cfg, run, n, k);
    assert i < j ==> SweptBetween(run[n].server.trace, k, i, j);
  }

  /** A keyed call sends at most six requests, and within retention they commit at most one tunnel; if
      the call returns a tunnel, it is that one. */
  lemma KeyedCreateOnce(cfg: Config, run: seq<Joint>, n: nat, k: IdemKey)
    requires JointRun(cfg, run) && n < |run| && run[0].call.key == Some(k) && Unused(run[0].server, k)
    requires run[n].server.now <= run[0].server.now + cfg.keyRetention
    ensures |run[n].call.sent| <= 6
    ensures var trace := run[n].server.trace;
            forall i, j | 0 <= i < |trace| && 0 <= j < |trace| ::
              CommitUnder(trace[i], k) && CommitUnder(trace[j], k) ==> i == j
    ensures var client, trace := run[n].call.client, run[n].server.trace;
            client.Returned? && client.tunnel.Some? ==>
              exists i :: 0 <= i < |trace| && CommitUnder(trace[i], k) && trace[i].body == client.tunnel.value
  {
    var client, trace := run[n].call.client, run[n].server.trace;
    JointInv(cfg, run, n);
    forall i, j | 0 <= i < |trace| && 0 <= j < |trace| && CommitUnder(trace[i], k) && CommitUnder(trace[j], k)
      ensures i == j
    {
      if i <= j { OneCommitPerKey(cfg, run, n, k, i, j); } else { OneCommitPerKey(cfg, run, n, k, j, i); }
    }
    if client.Returned? && client.tunnel.Some? {
      var r :| 0 <= r < |run[n].call.sent| && Backed(trace, run[n].call.sent[r], Some(k), client.tunnel.value);
      var i :| 0 <= i < |trace| && Backs(trace[i], run[n].call.sent[r], Some(k), client.tunnel.value);
      assert CommitUnder(trace[i], k);
    }
  }

  lemma HearsConflict(c: Call, retryAfter: bool, whole: bool, cut: bool)
    requires Ready(c.client) && c.key.Some?
    ensures var c' := Heard(c, Read(Reply(409, retryAfter, OtherBody), whole), cut);
            && c'.waiting.None?
            && c'.client == if retryAfter && c.client.inner < 3 && !cut then Sending(c.client.outer, c.client.inner + 1)
                            else Returned(None)
  {}

  /** A call told that its key is in flight, or just freed, sends another request unless that was its
      third attempt or its caller gives up; one told that the key belongs to another request stops. */
  lemma ConflictDecidesCall(cfg: Config, run: seq<Joint>, n: nat, p: Pid, k: IdemKey, whole: bool, cut: bool)
    requires JointRun(cfg, run) && n + 2 < |run| && run[n].call.waiting == Some(p) && run[n].call.key == Some(k)
    requires JointNext(cfg, run[n], Serve(ServeExisting(p)), run[n + 1])
    requires JointNext(cfg, run[n + 1], Receive(whole, cut), run[n + 2])
    ensures var s, c, c' := run[n].server, run[n].call, run[n + 2].call;
            var comesBack := k !in s.keys || (s.keys[k].hash == s.procs[p].hash && s.keys[k].result.None?);
            && (comesBack && c.client.inner < 3 && !cut ==>
                  c'.client == Sending(c.client.outer, c.client.inner + 1) && c'.waiting.None?)
            && (comesBack && (c.client.inner == 3 || cut) ==> c'.client == Returned(None))
            && (k in s.keys && s.keys[k].hash != s.procs[p].hash ==> c'.client == Returned(None))
  {
    JointInv(cfg, run, n);
    RowAnswer(cfg, run[n].server, p, k, run[n + 1].server);
    HearsConflict(run[n].call, true, whole, cut);
    HearsConflict(run[n].call, false, whole, cut);
  }

  /** … and a call about to send a request can send it, under any process ID not in use. */
  lemma CanSend(cfg: Config, run: seq<Joint>, n: nat, p: Pid)
    requires JointRun(cfg, run) && n < |run| && run[n].call.client.Sending? && run[n].call.waiting.None?
    requires p !in run[n].server.procs
    ensures exists j' :: JointNext(cfg, run[n], Send(p), j') && j'.call.waiting == Some(p)
  {
    JointInv(cfg, run, n);
    var c, s := run[n].call, run[n].server;
    assert JointNext(cfg, run[n], Send(p),
                     Joint(Put(s, p, Arriving(c.job, c.key, c.hash)), c.(waiting := Some(p), sent := c.sent + [p])));
  }

  /** The document a call returns, keyed or not, names an existing tunnel and carries the secret of a
      credential issued for it. */
  lemma ReturnedCredentialIssued(cfg: Config, run: seq<Joint>, n: nat)
    requires JointRun(cfg, run) && n < |run| && run[n].call.client.Returned? && run[n].call.client.tunnel.Some?
    ensures var body, s := run[n].call.client.tunnel.value, run[n].server;
            && body.TunnelBody? && body.tunnel in s.tunnels
            && exists r | r in s.issued ::
                 s.issued[r] == RuntimeToken(body.tunnel, Sha256(body.secret), body.expiresAt, s.issued[r].revokedAt)
  {
    JointInv(cfg, run, n);
    var c, s := run[n].call, run[n].server;
    var body := c.client.tunnel.value;
    var r :| 0 <= r < |c.sent| && Backed(s.trace, c.sent[r], c.key, body);
    var i :| 0 <= i < |s.trace| && Backs(s.trace[i], c.sent[r], c.key, body);
    assert Delivers(s, s.trace[i]);
    assert s.trace[i].pid in s.issued;
  }

  predicate CommittedBy(o: Obs, p: Pid) {
    o.TunnelCommitted? && o.pid == p
  }

  lemma ReturnsOwn(trace: seq<Obs>, c: Call, body: Body)
    requires c.key.None? && |c.sent| == 1 && Returns(trace, c, body)
    ensures exists i | 0 <= i < |trace| :: CommittedBy(trace[i], c.sent[0]) && trace[i].body == body
  {
    var r :| 0 <= r < |c.sent| && Backed(trace, c.sent[r], c.key, body);
    var i :| 0 <= i < |trace| && Backs(trace[i], c.sent[r], c.key, body);
    assert CommittedBy(trace[i], c.sent[0]);
  }

  /** An unkeyed call sends exactly one request, which commits at most one tunnel; if the call returns a
      tunnel, it is that request's own. */
  lemma UnkeyedCreateOnce(cfg: Config, run: seq<Joint>, n: nat)
    requires JointRun(cfg, run) && n < |run| && run[0].call.key.None?
    ensures var c, trace := run[n].call, run[n].server.trace;
            && |c.sent| <= 1
            && (c.client.Returned? ==> |c.sent| == 1)
            && (|c.sent| == 1 ==>
                  forall i, j | 0 <= i < |trace| && 0 <= j < |trace| ::
                    CommittedBy(trace[i], c.sent[0]) && CommittedBy(trace[j], c.sent[0]) ==> i == j)
            && (c.client.Returned? && c.client.tunnel.Some? ==>
                  exists i | 0 <= i < |trace| ::
                    CommittedBy(trace[i], c.sent[0]) && trace[i].body == c.client.tunnel.value)
  {
    JointInv(cfg, run, n);
    var c, trace := run[n].call, run[n].server.trace;
    assert CommitsByPid(run[n].server);
    if c.client.Returned? && c.client.tunnel.Some? { ReturnsOwn(trace, c, c.client.tunnel.value); }
  }
}
