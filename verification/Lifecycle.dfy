// The tunnel lifecycle as its handlers behave when nothing runs beside them: the transition
// table, the event log it must explain, and an in-memory store with the handlers' own statements.

module Lifecycle {
  import opened Prelude
  import opened Schema

  /** The transition table. `Created` is the event logged by the INSERT and labels no edge. */
  function Edge(s: Status, e: Event): Option<Status> {
    match (s, e)
    case (Reserved, NewProxy) => Some(Active)
    case (Closed, NewProxy) => Some(Active)
    case (Active, CloseProxy) => Some(Closed)
    case (Reserved, Expire) => Some(Expired)
    case (Active, Expire) => Some(Expired)
    case (Closed, Expire) => Some(Expired)
    case (Reserved, Revoke) => Some(Revoked)
    case (Active, Revoke) => Some(Revoked)
    case (Closed, Revoke) => Some(Revoked)
    case _ => None
  }

  /** Status explained by an event log, or None when some event has no edge where it stands. */
  function Fold(log: seq<Event>): Option<Status> {
    if |log| == 0 then None
    else if |log| == 1 then if log[0].Created? then Some(Reserved) else None
    else
      match Fold(log[..|log| - 1])
      case None => None
      case Some(s) => Edge(s, log[|log| - 1])
  }

  predicate Terminating(e: Event) {
    e.Expire? || e.Revoke?
  }

  /** An explained log opens with its creation, has no other, and ends at its first terminating event. */
  lemma {:induction false} FoldShape(log: seq<Event>)
    requires Fold(log).Some?
    ensures |log| > 0 && log[0].Created?
    ensures forall i :: 0 < i < |log| ==> !log[i].Created?
    ensures forall i :: 0 <= i < |log| - 1 ==> !Terminating(log[i])
    ensures Terminating(log[|log| - 1]) <==> !NonTerminal(Fold(log).value)
  {
    if |log| > 1 {
      var init := log[..|log| - 1];
      FoldShape(init);
      forall i | 0 <= i < |log| - 1 ensures !Terminating(log[i]) && (i > 0 ==> !log[i].Created?) {
        assert log[i] == init[i];
      }
      assert log[0] == init[0];
    }
  }

  /** Every non-empty prefix of an explained log is explained: no step of the fold is undefined. */
  lemma {:induction false} FoldPrefix(log: seq<Event>, n: nat)
    requires Fold(log).Some? && 0 < n <= |log|
    ensures Fold(log[..n]).Some?
  {
    if n == |log| {
      assert log[..n] == log;
    } else {
      var init := log[..|log| - 1];
      FoldPrefix(init, n);
      assert init[..n] == log[..n];
    }
  }

  lemma {:induction false} FoldAppend(log: seq<Event>, e: Event)
    requires Fold(log).Some?
    ensures Fold(log + [e]) == Edge(Fold(log).value, e)
  {
    assert (log + [e])[..|log|] == log;
  }

  /** A log that reaches active or closed holds a NewProxy event and nothing terminating. */
  lemma {:induction false} FoldServing(log: seq<Event>)
    requires Fold(log) == Some(Active) || Fold(log) == Some(Closed)
    ensures NewProxy in log
    ensures forall i :: 0 <= i < |log| ==> !Terminating(log[i])
  {
    FoldShape(log);
    if log[|log| - 1] != NewProxy {
      FoldServing(log[..|log| - 1]);
    }
  }

  /** The status an explained log ends in is read off its last event. */
  lemma LastEventDecides(log: seq<Event>)
    requires Fold(log).Some?
    ensures |log| > 0
    ensures Fold(log) == Some(Reserved) <==> log == [Created]
    ensures Fold(log) == Some(Active) <==> log[|log| - 1] == NewProxy
    ensures Fold(log) == Some(Closed) <==> log[|log| - 1] == CloseProxy
    ensures Fold(log) == Some(Expired) <==> log[|log| - 1] == Expire
    ensures Fold(log) == Some(Revoked) <==> log[|log| - 1] == Revoke
  {
    assert |log| == 1 ==> log == [log[0]];
  }

  // ----- one call at a time -----

  /** The committed lifecycle data. Tokens are keyed by their row ID. */
  datatype Ledger = Ledger(
    tunnels: map<TunnelId, Tunnel>,
    tokens: map<nat, RuntimeToken>,
    log: map<TunnelId, seq<Event>>)

  const EMPTY := Ledger(map[], map[], map[])

  /** A lifecycle call, run alone, with the database clock value it observes. */
  datatype Op =
    | CreateOp(id: TunnelId, row: Tunnel, rid: nat, token: RuntimeToken)
    | TransitionOp(t: TunnelId, e: Event, clock: nat)
    | RevokeOp(t: TunnelId, at: nat)
    | ReapOp(rows: set<TunnelId>, at: nat)

  function Logged(log: map<TunnelId, seq<Event>>, t: TunnelId, e: Event): map<TunnelId, seq<Event>> {
    log[t := (if t in log then log[t] else []) + [e]]
  }

  function WithTokensRevoked(tokens: map<nat, RuntimeToken>, t: TunnelId, at: nat): map<nat, RuntimeToken> {
    map r | r in tokens ::
      if tokens[r].tunnel == t && tokens[r].revokedAt.None? then tokens[r].(revokedAt := Some(at)) else tokens[r]
  }

  function WithStatus(ts: map<TunnelId, Tunnel>, rows: set<TunnelId>, s: Status): map<TunnelId, Tunnel> {
    map t | t in ts :: if t in rows then ts[t].(status := s) else ts[t]
  }

  function WithEvents(log: map<TunnelId, seq<Event>>, rows: set<TunnelId>, e: Event): map<TunnelId, seq<Event>> {
    map t | t in log.Keys + rows :: if t in rows then (if t in log then log[t] else []) + [e] else log[t]
  }

  /** The edge a Transition call takes, if it takes one. */
  function TakenEdge(row: Tunnel, e: Event, clock: nat): Option<Status> {
    if e.NewProxy? && (row.expiresAt <= clock || row.status.Active?) then None else Edge(row.status, e)
  }

  function Perform(l: Ledger, op: Op): Ledger {
    match op
    case CreateOp(id, row, rid, token) =>
      Ledger(l.tunnels[id := row], l.tokens[rid := token], Logged(l.log, id, Created))
    case TransitionOp(t, e, clock) =>
      if t in l.tunnels && TakenEdge(l.tunnels[t], e, clock).Some? then
        l.(tunnels := l.tunnels[t := l.tunnels[t].(status := TakenEdge(l.tunnels[t], e, clock).value)],
           log := Logged(l.log, t, e))
      else l
    case RevokeOp(t, at) =>
      if t !in l.tunnels then l
      else
        var l' := if NonTerminal(l.tunnels[t].status)
                  then l.(tunnels := l.tunnels[t := l.tunnels[t].(status := Revoked)], log := Logged(l.log, t, Revoke))
                  else l;
        l'.(tokens := WithTokensRevoked(l.tokens, t, at))
    case ReapOp(rows, at) =>
      l.(tunnels := WithStatus(l.tunnels, rows, Expired), log := WithEvents(l.log, rows, Expire))
  }

  /** Calls the running server issues: only the reaper expires, and only rows elapsed at `at`. */
  ghost predicate Legal(maxTtl: nat, l: Ledger, op: Op, now: nat) {
    match op
    case CreateOp(id, row, rid, token) =>
      && id !in l.tunnels && rid !in l.tokens
      && row.status == Reserved && row.insertedAt <= now
      && row.insertedAt <= row.expiresAt <= row.insertedAt + maxTtl
      && token.tunnel == id && token.expiresAt == row.expiresAt && token.revokedAt.None?
    case TransitionOp(t, e, clock) => (e.NewProxy? || e.CloseProxy?) && clock <= now
    case RevokeOp(t, at) => at <= now
    case ReapOp(rows, at) =>
      && at <= now
      && forall t :: t in rows ==> t in l.tunnels && NonTerminal(l.tunnels[t].status) && l.tunnels[t].expiresAt < at
  }

  /** Every row's status is the one its log explains. */
  ghost predicate LogExplains(l: Ledger) {
    && l.log.Keys == l.tunnels.Keys
    && forall t :: t in l.tunnels ==> Fold(l.log[t]) == Some(l.tunnels[t].status)
  }

  /** Credentials agree with their tunnels. */
  ghost predicate CredentialsAgree(l: Ledger) {
    forall r :: r in l.tokens ==>
      && l.tokens[r].tunnel in l.tunnels
      && l.tokens[r].expiresAt == l.tunnels[l.tokens[r].tunnel].expiresAt
      && (l.tunnels[l.tokens[r].tunnel].status == Revoked ==> l.tokens[r].revokedAt.Some?)
      && (l.tokens[r].revokedAt.Some? ==> !NonTerminal(l.tunnels[l.tokens[r].tunnel].status))
  }

  /** Expired rows have elapsed, and no row lives longer than MaxTTL. */
  ghost predicate TimesAgree(maxTtl: nat, l: Ledger, now: nat) {
    forall t :: t in l.tunnels ==>
      && (l.tunnels[t].status == Expired ==> l.tunnels[t].expiresAt < now)
      && l.tunnels[t].insertedAt <= now
      && l.tunnels[t].insertedAt <= l.tunnels[t].expiresAt <= l.tunnels[t].insertedAt + maxTtl
  }

  ghost predicate Sound(maxTtl: nat, l: Ledger, now: nat) {
    LogExplains(l) && CredentialsAgree(l) && TimesAgree(maxTtl, l, now)
  }

  lemma EdgeLeavesNonTerminal(s: Status, e: Event)
    requires Edge(s, e).Some?
    ensures NonTerminal(s) && !e.Created?
    ensures Edge(s, e).value == Expired <==> e == Expire
    ensures Edge(s, e).value == Revoked <==> e == Revoke
  {}

  lemma OneStepLogged(l: Ledger, t: TunnelId, e: Event, to: Status)
    requires LogExplains(l) && t in l.tunnels && Edge(l.tunnels[t].status, e) == Some(to)
    ensures LogExplains(l.(tunnels := l.tunnels[t := l.tunnels[t].(status := to)], log := Logged(l.log, t, e)))
  {
    FoldAppend(l.log[t], e);
  }

  lemma ReapLogged(l: Ledger, rows: set<TunnelId>)
    requires LogExplains(l)
    requires forall t :: t in rows ==> t in l.tunnels && NonTerminal(l.tunnels[t].status)
    ensures LogExplains(l.(tunnels := WithStatus(l.tunnels, rows, Expired), log := WithEvents(l.log, rows, Expire)))
  {
    var log' := WithEvents(l.log, rows, Expire);
    forall t | t in rows ensures Fold(log'[t]) == Some(Expired) {
      FoldAppend(l.log[t], Expire);
    }
    assert l.log.Keys + rows == l.log.Keys;
  }

  lemma LogKept(maxTtl: nat, l: Ledger, op: Op, now: nat)
    requires LogExplains(l) && Legal(maxTtl, l, op, now)
    ensures LogExplains(Perform(l, op))
  {
    match op
    case CreateOp(id, row, rid, token) =>
      assert [] + [Created] == [Created];
    case TransitionOp(t, e, clock) =>
      if t in l.tunnels && TakenEdge(l.tunnels[t], e, clock).Some? {
        OneStepLogged(l, t, e, TakenEdge(l.tunnels[t], e, clock).value);
      }
    case RevokeOp(t, at) =>
      if t in l.tunnels && NonTerminal(l.tunnels[t].status) {
        OneStepLogged(l, t, Revoke, Revoked);
      }
    case ReapOp(rows, at) =>
      ReapLogged(l, rows);
  }

  lemma CredentialsKept(maxTtl: nat, l: Ledger, op: Op, now: nat)
    requires CredentialsAgree(l) && Legal(maxTtl, l, op, now)
    ensures CredentialsAgree(Perform(l, op))
  {
    if op.TransitionOp? && op.t in l.tunnels && TakenEdge(l.tunnels[op.t], op.e, op.clock).Some? {
      EdgeLeavesNonTerminal(l.tunnels[op.t].status, op.e);
    }
  }

  lemma TimesKept(maxTtl: nat, l: Ledger, op: Op, now: nat)
    requires TimesAgree(maxTtl, l, now) && Legal(maxTtl, l, op, now)
    ensures TimesAgree(maxTtl, Perform(l, op), now)
  {
    if op.TransitionOp? && op.t in l.tunnels && TakenEdge(l.tunnels[op.t], op.e, op.clock).Some? {
      EdgeLeavesNonTerminal(l.tunnels[op.t].status, op.e);
    }
  }

  /** What every lifecycle call keeps. */
  lemma SoundKept(maxTtl: nat, l: Ledger, op: Op, now: nat)
    requires Sound(maxTtl, l, now) && Legal(maxTtl, l, op, now)
    ensures Sound(maxTtl, Perform(l, op), now)
  {
    LogKept(maxTtl, l, op, now);
    CredentialsKept(maxTtl, l, op, now);
    TimesKept(maxTtl, l, op, now);
  }

  // ----- the handlers as they are written -----

  /** Past its expiry at `at` and not yet expired or revoked. */
  predicate Elapses(row: Tunnel, at: nat) {
    row.status != Expired && row.status != Revoked && row.expiresAt < at
  }

  datatype Outcome = Moved(to: Status) | AlreadyActive | NotFound | Elapsed | NoEdge | RevokedNow

  /** The store a lone handler sees. Methods follow the handlers' statements in order. */
  class TunnelStore {
    var tunnels: map<TunnelId, Tunnel>
    var tokens: map<nat, RuntimeToken>
    var log: map<TunnelId, seq<Event>>

    ghost function Contents(): Ledger
      reads this
    {
      Ledger(tunnels, tokens, log)
    }

    method InsertEvent(t: TunnelId, e: Event)
      modifies this`log
      ensures log == Logged(old(log), t, e)
    {
      var before := if t in log then log[t] else [];
      log := log[t := before + [e]];
    }

    /** One validated state change with its event; Revoke events go through Revoke. */
    method Transition(t: TunnelId, e: Event, clock: nat) returns (r: Outcome)
      modifies this
      ensures Contents() ==
              Perform(old(Contents()), if e.Revoke? then RevokeOp(t, clock) else TransitionOp(t, e, clock))
      ensures r.NotFound? <==> t !in old(tunnels)
      ensures r.Moved? ==>
                t in old(tunnels) && Edge(old(tunnels)[t].status, e) == Some(r.to) && tunnels[t].status == r.to
      ensures r.Moved? && e.NewProxy? ==> clock < old(tunnels)[t].expiresAt
      ensures r.Elapsed? <==> e.NewProxy? && t in old(tunnels) && old(tunnels)[t].expiresAt <= clock
      ensures r.AlreadyActive? <==>
                e.NewProxy? && t in old(tunnels) && clock < old(tunnels)[t].expiresAt && old(tunnels)[t].status.Active?
      ensures r.AlreadyActive? || r.Elapsed? || r.NoEdge? || r.NotFound? ==> Contents() == old(Contents())
      ensures r.RevokedNow? <==> e.Revoke? && t in old(tunnels)
      ensures e.NewProxy? && t in old(tunnels) && clock < old(tunnels)[t].expiresAt
              && (old(tunnels)[t].status.Reserved? || old(tunnels)[t].status.Closed?) ==>
                r == Moved(Active) && tunnels == old(tunnels)[t := old(tunnels)[t].(status := Active)]
      ensures e.CloseProxy? && t in old(tunnels) && old(tunnels)[t].status.Active? ==>
                r == Moved(Closed) && tunnels == old(tunnels)[t := old(tunnels)[t].(status := Closed)]
      ensures r.Moved? ==> t in log && log == old(log)[t := log[t]] && tokens == old(tokens)
      ensures r.Moved? ==> log[t] == (if t in old(log) then old(log)[t] else []) + [e]
    {
      if e.Revoke? {
        var found := RevokeTunnel(t, None, clock);
        return if found then RevokedNow else NotFound;
      }
      if t !in tunnels { return NotFound; }
      var current := tunnels[t].status;
      if e.NewProxy? {
        if !(tunnels[t].expiresAt > clock) { return Elapsed; }
        if current.Active? { return AlreadyActive; }
      }
      var next := Edge(current, e);
      if next.None? { return NoEdge; }
      tunnels := tunnels[t := tunnels[t].(status := next.value)];
      InsertEvent(t, e);
      return Moved(next.value);
    }

    /** Revokes a tunnel and its live credentials; an owner mismatch changes nothing. */
    method RevokeTunnel(t: TunnelId, owner: Option<UserId>, at: nat) returns (found: bool)
      modifies this
      ensures found <==> t in old(tunnels) && (owner.None? || old(tunnels)[t].user == owner.value)
      ensures Contents() == if found then Perform(old(Contents()), RevokeOp(t, at)) else old(Contents())
      ensures found ==>
                var s := if old(tunnels)[t].status == Expired then Expired else Revoked;
                tunnels == old(tunnels)[t := old(tunnels)[t].(status := s)]
      ensures found && old(tunnels)[t].status != Expired && old(tunnels)[t].status != Revoked ==>
                log == old(log)[t := (if t in old(log) then old(log)[t] else []) + [Revoke]]
      ensures found && (old(tunnels)[t].status == Expired || old(tunnels)[t].status == Revoked) ==> log == old(log)
      ensures found ==> tokens.Keys == old(tokens).Keys
      ensures found ==> forall k :: k in tokens ==>
                tokens[k] == if old(tokens)[k].tunnel == t && old(tokens)[k].revokedAt.None?
                             then old(tokens)[k].(revokedAt := Some(at)) else old(tokens)[k]
    {
      if t !in tunnels || (owner.Some? && tunnels[t].user != owner.value) { return false; }
      var current := tunnels[t].status;
      if current != Expired && current != Revoked {
        tunnels := tunnels[t := tunnels[t].(status := Edge(current, Revoke).value)];
        InsertEvent(t, Revoke);
      }
      tokens := WithTokensRevoked(tokens, t, at);
      return true;
    }

    /** The reaper's UPDATE … RETURNING: marks every elapsed non-terminal row and collects the IDs. */
    method MarkElapsed(at: nat) returns (expired: seq<TunnelId>)
      modifies this`tunnels
      ensures forall t :: t in expired <==> t in old(tunnels) && Elapses(old(tunnels)[t], at)
      ensures tunnels.Keys == old(tunnels).Keys
      ensures forall t :: t in tunnels ==>
                tunnels[t] == if t in expired then old(tunnels)[t].(status := Expired) else old(tunnels)[t]
      ensures forall t :: t in expired <==> t in ElapsedRows(old(tunnels), at)
      ensures Distinct(expired)
      ensures tunnels == WithStatus(old(tunnels), ElapsedRows(old(tunnels), at), Expired)
    {
      expired := [];
      var elapsed := ElapsedRows(tunnels, at);
      var todo := elapsed;
      while todo != {}
        invariant todo <= elapsed
        invariant forall t :: t in expired <==> t in elapsed - todo
        invariant Distinct(expired)
        invariant tunnels == WithStatus(old(tunnels), elapsed - todo, Expired)
        decreases todo
      {
        var t :| t in todo;
        tunnels := tunnels[t := tunnels[t].(status := Expired)];
        expired := expired + [t];
        todo := todo - {t};
      }
    }

    /** Expires every elapsed non-terminal row, then logs one event for each. */
    method ReapExpired(at: nat) returns (expired: seq<TunnelId>)
      modifies this
      ensures forall t :: t in tunnels ==> !Elapses(tunnels[t], at)
      ensures Distinct(expired) && forall t :: t in expired <==> t in old(tunnels) && Elapses(old(tunnels)[t], at)
      ensures tunnels.Keys == old(tunnels).Keys && tokens == old(tokens)
      ensures forall t :: t in tunnels ==>
                tunnels[t] == if t in expired then old(tunnels)[t].(status := Expired) else old(tunnels)[t]
      ensures forall t :: t in expired ==>
                t in log && log[t] == (if t in old(log) then old(log)[t] else []) + [Expire]
      ensures forall t :: t !in expired ==> (t in log <==> t in old(log)) && (t in log ==> log[t] == old(log)[t])
      ensures forall t :: t in expired <==> t in ElapsedRows(old(tunnels), at)
      ensures Contents() == Perform(old(Contents()), ReapOp(ElapsedRows(old(tunnels), at), at))
    {
      expired := MarkElapsed(at);
      ghost var done: set<TunnelId> := {};
      for i := 0 to |expired|
        modifies this`log
        invariant forall t :: t in done <==> t in expired[..i]
        invariant log == WithEvents(old(log), done, Expire)
      {
        assert expired[i] !in done;
        InsertEvent(expired[i], Expire);
        done := done + {expired[i]};
      }
      assert done == ElapsedRows(old(tunnels), at);
    }
  }

  function ElapsedRows(ts: map<TunnelId, Tunnel>, at: nat): set<TunnelId> {
    set t | t in ts && NonTerminal(ts[t].status) && ts[t].expiresAt < at
  }

  ghost predicate Distinct<T>(s: seq<T>) {
    forall i, j :: 0 <= i < j < |s| ==> s[i] != s[j]
  }
}
