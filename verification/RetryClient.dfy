// The retrying client: up to three attempts per exchange and, for a keyed creation, one more exchange
// when the 201 that came back could not be decoded.

module RetryClient {
  import opened Prelude

  const MAX_ATTEMPTS := 3
  const MAX_DECODE_ATTEMPTS := 2

  /** All durations are milliseconds. */
  const REQUEST_TIMEOUT := 30_000
  const MAX_RETRY_AFTER := 5_000

  datatype Method = Get | Head | Delete | Post

  /** The Retry-After header as strconv.Atoi sees it. */
  datatype RetryAfter = Absent | Seconds(n: int) | Malformed

  /** What one exchange came to; `decoded` is the tunnel read from the body, if it could be read. */
  datatype Answer<+B> =
    | Failed
    | Cancelled
    | Answered(status: int, retryAfter: RetryAfter, decoded: Option<B>)

  predicate ShouldRetry<B>(a: Answer<B>, keyed: bool) {
    match a
    case Failed => true
    case Cancelled => false
    case Answered(status, retryAfter, _) =>
      status == 502 || status == 503 || status == 504 || (status == 409 && keyed && !retryAfter.Absent?)
  }

  /** Exponential backoff, or the server's Retry-After if that is longer, but then five seconds at most. */
  function RetryDelay<B>(a: Answer<B>, attempt: nat): (r: nat)
    requires 1 <= attempt <= 2
    ensures 100 * attempt <= r <= MAX_RETRY_AFTER
    ensures !(a.Answered? && a.retryAfter.Seconds? && a.retryAfter.n > 0) ==> r == 100 * attempt
    ensures a.Answered? && a.retryAfter.Seconds? && 0 < a.retryAfter.n <= 5 ==> r == 1_000 * a.retryAfter.n
    ensures a.Answered? && a.retryAfter.Seconds? && a.retryAfter.n > 5 ==> r == MAX_RETRY_AFTER
  {
    var delay := if attempt == 1 then 100 else 200;
    if !a.Answered? || !a.retryAfter.Seconds? || a.retryAfter.n < 0 then delay
    else
      var serverDelay := if a.retryAfter.n * 1_000 <= MAX_RETRY_AFTER then a.retryAfter.n * 1_000 else MAX_RETRY_AFTER;
      if delay >= serverDelay then delay else serverDelay
  }

  predicate Retryable(m: Method, keyed: bool) {
    !m.Post? || keyed
  }

  predicate Is201<B>(a: Answer<B>) {
    a.Answered? && a.status == 201
  }

  /** The network a call runs against: the n-th exchange's answer, and whether the pause before the
      n-th exchange is cut short by the caller's context. */
  datatype Script<!B> = Script(answers: nat -> Answer<B>, cuts: nat -> bool)

  function AnswerOf<B>(w: Script<B>, n: nat): Answer<B> {
    w.answers(n)
  }

  predicate CutBefore<B>(w: Script<B>, n: nat) {
    w.cuts(n)
  }

  // ----- the client as an automaton over single answers -----

  /** Before an exchange: `outer` counts decode attempts, `inner` attempts within one. */
  datatype Client<+B> = Sending(outer: nat, inner: nat) | Returned(tunnel: Option<B>)

  datatype Reaction<+B> = Stop(tunnel: Option<B>) | Again(next: Client<B>, delay: nat)

  predicate Ready<B>(c: Client<B>) {
    c.Sending? && 1 <= c.outer <= MAX_DECODE_ATTEMPTS && 1 <= c.inner <= MAX_ATTEMPTS
  }

  /** What a creation does with the answer to its current attempt. */
  function React<B>(keyed: bool, c: Client<B>, a: Answer<B>): (r: Reaction<B>)
    requires Ready(c)
    ensures r.Again? ==> keyed && Ready(r.next)
  {
    if keyed && c.inner < MAX_ATTEMPTS && ShouldRetry(a, keyed) then
      Again(Sending(c.outer, c.inner + 1), RetryDelay(a, c.inner))
    else if Is201(a) && a.decoded.Some? then Stop(a.decoded)
    else if Is201(a) && keyed && c.outer < MAX_DECODE_ATTEMPTS then
      Again(Sending(c.outer + 1, 1), RetryDelay<B>(Failed, c.outer))
    else Stop(None)
  }

  function OnAnswer<B>(keyed: bool, c: Client<B>, a: Answer<B>, cut: bool): Client<B>
    requires Ready(c)
  {
    match React(keyed, c, a)
    case Stop(tunnel) => Returned(tunnel)
    case Again(next, _) => if cut then Returned(None) else next
  }

  /** Attempts a client has left, counting the one it is about to make. */
  function Left<B>(keyed: bool, c: Client<B>): nat {
    if !Ready(c) then 0
    else if keyed then MAX_ATTEMPTS * (MAX_DECODE_ATTEMPTS - c.outer) + MAX_ATTEMPTS + 1 - c.inner
    else 1
  }

  lemma LeftDecreases<B>(keyed: bool, c: Client<B>, a: Answer<B>, cut: bool)
    requires Ready(c)
    ensures Left(keyed, OnAnswer(keyed, c, a, cut)) < Left(keyed, c)
    ensures !keyed ==> OnAnswer(keyed, c, a, cut).Returned?
  {}

  /** Result of a whole call: exchanges made since the start of the script and milliseconds paused. */
  datatype Played<+B> = Played(tunnel: Option<B>, sent: nat, paused: nat)

  function Play<B>(keyed: bool, w: Script<B>, c: Client<B>, n: nat): Played<B>
    requires Ready(c)
    decreases Left(keyed, c)
  {
    LeftDecreases(keyed, c, AnswerOf(w, n), false);
    match React(keyed, c, AnswerOf(w, n))
    case Stop(tunnel) => Played(tunnel, n + 1, 0)
    case Again(next, delay) =>
      if CutBefore(w, n + 1) then Played(None, n + 1, 0)
      else
        var rest := Play(keyed, w, next, n + 1);
        rest.(paused := delay + rest.paused)
  }

  /** Pauses a client can still make at most. */
  function PauseBudget<B>(keyed: bool, c: Client<B>): nat
    requires Ready(c)
  {
    if !keyed then 0
    else MAX_RETRY_AFTER * (MAX_ATTEMPTS - c.inner)
         + (if c.outer == 1 then 100 + MAX_RETRY_AFTER * (MAX_ATTEMPTS - 1) else 0)
  }

  lemma {:induction false} PlayBounded<B>(keyed: bool, w: Script<B>, c: Client<B>, n: nat)
    requires Ready(c)
    ensures n < Play(keyed, w, c, n).sent <= n + Left(keyed, c)
    ensures Play(keyed, w, c, n).paused <= PauseBudget(keyed, c)
    decreases Left(keyed, c)
  {
    LeftDecreases(keyed, c, AnswerOf(w, n), false);
    var r := React(keyed, c, AnswerOf(w, n));
    if r.Again? && !CutBefore(w, n + 1) { PlayBounded(keyed, w, r.next, n + 1); }
  }

  /** A creation makes at most six exchanges with a key and exactly one without, and with every
      request at its timeout a whole call still ends within 200.1 seconds. */
  lemma RequestsBounded<B>(keyed: bool, w: Script<B>)
    ensures var r := Play(keyed, w, Sending(1, 1), 0);
            && 1 <= r.sent <= (if keyed then 6 else 1)
            && r.sent * REQUEST_TIMEOUT + r.paused <= 200_100
  {
    PlayBounded(keyed, w, Sending(1, 1), 0);
  }

  /** A returned tunnel is the first 201 that could be decoded, and nothing is sent after it. */
  lemma {:induction false} ReturnsFirstDecoded<B>(keyed: bool, w: Script<B>, c: Client<B>, n: nat)
    requires Ready(c)
    ensures var r := Play(keyed, w, c, n);
            && r.sent > n
            && (forall i :: n <= i < r.sent - 1 ==> !(Is201(AnswerOf(w, i)) && AnswerOf(w, i).decoded.Some?))
            && (r.tunnel.Some? <==> Is201(AnswerOf(w, r.sent - 1)) && AnswerOf(w, r.sent - 1).decoded.Some?)
            && (r.tunnel.Some? ==> r.tunnel == AnswerOf(w, r.sent - 1).decoded)
    decreases Left(keyed, c)
  {
    LeftDecreases(keyed, c, AnswerOf(w, n), false);
    var r := React(keyed, c, AnswerOf(w, n));
    if r.Again? && !CutBefore(w, n + 1) { ReturnsFirstDecoded(keyed, w, r.next, n + 1); }
  }

  // ----- when a call goes on and when it ends -----

  /** A network failure, a gateway error, or a conflict on a key that asks to come back. */
  predicate Passing<B>(a: Answer<B>, keyed: bool) {
    match a
    case Failed => true
    case Cancelled => false
    case Answered(status, retryAfter, _) =>
      status in {502, 503, 504} || (status == 409 && keyed && retryAfter != Absent)
  }

  /** Exchanges n, …, n + k - 1 came to nothing lasting, and no pause after one was cut. */
  ghost predicate PassesBy<B>(w: Script<B>, keyed: bool, n: nat, k: nat) {
    forall i :: n <= i < n + k ==> Passing(AnswerOf(w, i), keyed) && !CutBefore(w, i + 1)
  }

  lemma PlaysNext<B>(w: Script<B>, c: Client<B>, n: nat)
    requires Ready(c) && c.inner < 3 && Passing(AnswerOf(w, n), true) && !CutBefore(w, n + 1)
    ensures var r, later := Play(true, w, c, n), Play(true, w, Sending(c.outer, c.inner + 1), n + 1);
            r.tunnel == later.tunnel && r.sent == later.sent
  {
    var next: Client<B> := Sending(c.outer, c.inner + 1);
    assert React(true, c, AnswerOf(w, n)) == Again(next, RetryDelay(AnswerOf(w, n), c.inner));
  }

  lemma {:induction false} PlaysOn<B>(w: Script<B>, c: Client<B>, n: nat, k: nat)
    requires Ready(c) && c.inner + k <= 3 && PassesBy(w, true, n, k)
    ensures var r, later := Play(true, w, c, n), Play(true, w, Sending(c.outer, c.inner + k), n + k);
            r.tunnel == later.tunnel && r.sent == later.sent
    decreases k
  {
    if k > 0 {
      PlaysNext(w, c, n);
      PlaysOn(w, Sending(c.outer, c.inner + 1), n + 1, k - 1);
    }
  }

  /** After k passing answers exchange n + k decides: a tunnel is returned, and any answer but a 201 or a
      passing one ends the call; so do a third passing one, a cut pause, and, in the `last` series, a 201
      that cannot be decoded. */
  ghost predicate SeriesEnds<B>(w: Script<B>, last: bool, n: nat, k: nat, tunnel: Option<B>, sent: nat) {
    var a, cut := AnswerOf(w, n + k), CutBefore(w, n + k + 1);
    && (Is201(a) && a.decoded.Some? ==> tunnel == a.decoded && sent == n + k + 1)
    && (Is201(a) && a.decoded.None? && (last || cut) ==> tunnel.None? && sent == n + k + 1)
    && (!Is201(a) && !Passing(a, true) ==> tunnel.None? && sent == n + k + 1)
    && (Passing(a, true) && (k == 2 || cut) ==> tunnel.None? && sent == n + k + 1)
  }

  /** A 201 that cannot be decoded, and a pause that is not cut: the call is replayed. */
  ghost predicate Replays<B>(w: Script<B>, n: nat) {
    Is201(AnswerOf(w, n)) && AnswerOf(w, n).decoded.None? && !CutBefore(w, n + 1)
  }

  /** Where a keyed creation that sends its first request as exchange n ends, read off the script. */
  ghost predicate KeyedEnds<B>(w: Script<B>, n: nat, tunnel: Option<B>, sent: nat) {
    && (forall k | 0 <= k < 3 && PassesBy(w, true, n, k) :: SeriesEnds(w, false, n, k, tunnel, sent))
    && (forall k, mid, j | 0 <= k < 3 && 0 <= j < 3 && mid == n + k + 1
                           && PassesBy(w, true, n, k) && PassesBy(w, true, mid, j) ::
          Replays(w, n + k) ==> SeriesEnds(w, true, mid, j, tunnel, sent))
  }

  lemma SeriesPlays<B>(w: Script<B>, outer: nat, n: nat, k: nat)
    requires 1 <= outer <= 2 && k < 3 && PassesBy(w, true, n, k)
    ensures var r := Play(true, w, Sending(outer, 1), n); SeriesEnds(w, outer == 2, n, k, r.tunnel, r.sent)
  {
    PlaysOn(w, Sending(outer, 1), n, k);
  }

  lemma ReplayPlays<B>(w: Script<B>, n: nat, k: nat)
    requires k < 3 && PassesBy(w, true, n, k) && Replays(w, n + k)
    ensures var r, replay := Play(true, w, Sending(1, 1), n), Play(true, w, Sending(2, 1), n + k + 1);
            r.tunnel == replay.tunnel && r.sent == replay.sent
  {
    PlaysOn(w, Sending(1, 1), n, k);
  }

  lemma KeyedPlays<B>(w: Script<B>, n: nat)
    ensures var r := Play(true, w, Sending(1, 1), n); KeyedEnds(w, n, r.tunnel, r.sent)
  {
    var r := Play(true, w, Sending(1, 1), n);
    forall k | 0 <= k < 3 && PassesBy(w, true, n, k) ensures SeriesEnds(w, false, n, k, r.tunnel, r.sent) {
      SeriesPlays(w, 1, n, k);
    }
    forall k, mid, j | 0 <= k < 3 && 0 <= j < 3 && mid == n + k + 1 && PassesBy(w, true, n, k)
                       && PassesBy(w, true, mid, j) && Replays(w, n + k)
      ensures SeriesEnds(w, true, mid, j, r.tunnel, r.sent)
    {
      ReplayPlays(w, n, k);
      SeriesPlays(w, 2, mid, j);
    }
  }

  lemma SeriesStops<B>(w: Script<B>, n: nat) returns (k: nat)
    ensures k < 3 && PassesBy(w, true, n, k)
    ensures k == 2 || !Passing(AnswerOf(w, n + k), true) || CutBefore(w, n + k + 1)
  {
    k := 0;
    while k < 2 && Passing(AnswerOf(w, n + k), true) && !CutBefore(w, n + k + 1)
      invariant k < 3 && PassesBy(w, true, n, k)
    {
      k := k + 1;
    }
  }

  /** That leaves nothing open: the script alone determines result and number of requests. */
  lemma KeyedEndsOnce<B>(w: Script<B>, n: nat, t: Option<B>, s: nat, t': Option<B>, s': nat)
    requires KeyedEnds(w, n, t, s) && KeyedEnds(w, n, t', s')
    ensures t == t' && s == s'
  {
    var k := SeriesStops(w, n);
    assert SeriesEnds(w, false, n, k, t, s) && SeriesEnds(w, false, n, k, t', s');
    if Replays(w, n + k) {
      var mid := n + k + 1;
      var j := SeriesStops(w, mid);
      assert SeriesEnds(w, true, mid, j, t, s) && SeriesEnds(w, true, mid, j, t', s');
    }
  }

  /** The first decodable 201 within three attempts is returned, however many passing answers precede it,
      and likewise when the first series ended in one 201 that could not be decoded. */
  lemma RetriesReachTunnel<B>(w: Script<B>, n: nat, k: nat, j: nat, tunnel: Option<B>, sent: nat)
    requires KeyedEnds(w, n, tunnel, sent) && k < 3 && PassesBy(w, true, n, k)
    ensures Is201(AnswerOf(w, n + k)) && AnswerOf(w, n + k).decoded.Some? ==>
              tunnel == AnswerOf(w, n + k).decoded && sent == n + k + 1
    ensures var m := n + k + 1 + j;
            Replays(w, n + k) && j < 3 && PassesBy(w, true, n + k + 1, j) && Is201(AnswerOf(w, m)) ==>
              tunnel == AnswerOf(w, m).decoded && sent == m + 1
  {
    assert SeriesEnds(w, false, n, k, tunnel, sent);
    var mid := n + k + 1;
    if Replays(w, n + k) && j < 3 && PassesBy(w, true, mid, j) { assert SeriesEnds(w, true, mid, j, tunnel, sent); }
  }

  // ----- the client as it is written -----

  /** One exchange with its retries: the answer handed back, exchanges used, and pauses made. */
  datatype Exchanged<+B> = Exchanged(answer: Answer<B>, sent: nat, paused: nat)

  function Exchange<B>(m: Method, keyed: bool, w: Script<B>, attempt: nat, n: nat): Exchanged<B>
    requires 1 <= attempt <= MAX_ATTEMPTS
    decreases MAX_ATTEMPTS - attempt
  {
    var a := AnswerOf(w, n);
    if !Retryable(m, keyed) || attempt == MAX_ATTEMPTS || !ShouldRetry(a, keyed) then Exchanged(a, n + 1, 0)
    else if CutBefore(w, n + 1) then Exchanged(Cancelled, n + 1, 0)
    else
      var rest := Exchange(m, keyed, w, attempt + 1, n + 1);
      rest.(paused := RetryDelay(a, attempt) + rest.paused)
  }

  /** After k passing answers exchange n + k decides: its answer is handed back, unless it passes too and
      there is an attempt left. */
  ghost predicate AttemptEnds<B>(w: Script<B>, keyed: bool, n: nat, k: nat, a: Answer<B>, sent: nat) {
    var answer, cut := AnswerOf(w, n + k), CutBefore(w, n + k + 1);
    && (!Passing(answer, keyed) || k == 2 ==> a == answer && sent == n + k + 1)
    && (Passing(answer, keyed) && k < 2 && cut ==> a == Cancelled && sent == n + k + 1)
  }

  lemma {:induction false} ExchangesOn<B>(m: Method, keyed: bool, w: Script<B>, attempt: nat, n: nat, k: nat)
    requires 1 <= attempt && attempt + k <= 3 && (m in {Get, Head, Delete} || keyed) && PassesBy(w, keyed, n, k)
    ensures var x, later := Exchange(m, keyed, w, attempt, n), Exchange(m, keyed, w, attempt + k, n + k);
            x.answer == later.answer && x.sent == later.sent
    decreases k
  {
    if k > 0 { ExchangesOn(m, keyed, w, attempt + 1, n + 1, k - 1); }
  }

  lemma ExchangePlays<B>(m: Method, keyed: bool, w: Script<B>, n: nat)
    ensures var x := Exchange(m, keyed, w, 1, n);
            m in {Get, Head, Delete} || keyed ==>
              forall k | 0 <= k < 3 && PassesBy(w, keyed, n, k) :: AttemptEnds(w, keyed, n, k, x.answer, x.sent)
  {
    forall k | (m in {Get, Head, Delete} || keyed) && 0 <= k < 3 && PassesBy(w, keyed, n, k)
      ensures AttemptEnds(w, keyed, n, k, Exchange(m, keyed, w, 1, n).answer, Exchange(m, keyed, w, 1, n).sent)
    {
      ExchangesOn(m, keyed, w, 1, n, k);
    }
  }

  /** How a creation goes on from an exchange's answer. */
  function Resume<B>(keyed: bool, w: Script<B>, outer: nat, x: Exchanged<B>): Played<B>
    requires 1 <= outer <= MAX_DECODE_ATTEMPTS
  {
    if !Is201(x.answer) then Played(None, x.sent, x.paused)
    else if x.answer.decoded.Some? then Played(x.answer.decoded, x.sent, x.paused)
    else if !keyed || outer == MAX_DECODE_ATTEMPTS || CutBefore(w, x.sent) then Played(None, x.sent, x.paused)
    else
      var rest := Play(keyed, w, Sending(outer + 1, 1), x.sent);
      rest.(paused := x.paused + RetryDelay<B>(Failed, outer) + rest.paused)
  }

  /** The network answers or fails; only the client's own context cancels. */
  ghost predicate FromNetwork<B>(w: Script<B>) {
    forall i: nat :: !AnswerOf(w, i).Cancelled?
  }

  /** The two nested loops make the automaton's exchanges: the inner one is a run of its retries. */
  lemma {:induction false} ExchangeThenResume<B>(keyed: bool, w: Script<B>, c: Client<B>, n: nat)
    requires Ready(c) && FromNetwork(w)
    ensures Play(keyed, w, c, n) == Resume(keyed, w, c.outer, Exchange(Post, keyed, w, c.inner, n))
    decreases MAX_ATTEMPTS - c.inner
  {
    var a := AnswerOf(w, n);
    if keyed && c.inner < MAX_ATTEMPTS && ShouldRetry(a, keyed) && !CutBefore(w, n + 1) {
      var next: Client<B> := Sending(c.outer, c.inner + 1);
      ExchangeThenResume(keyed, w, next, n + 1);
      BothGoOn(keyed, w, c, n);
      ResumeLater(keyed, w, c.outer, Exchange(Post, keyed, w, next.inner, n + 1), RetryDelay(a, c.inner));
    } else {
      ExchangeEnds(keyed, w, c, n);
    }
  }

  lemma BothGoOn<B>(keyed: bool, w: Script<B>, c: Client<B>, n: nat)
    requires Ready(c) && keyed && c.inner < MAX_ATTEMPTS && ShouldRetry(AnswerOf(w, n), keyed) && !CutBefore(w, n + 1)
    ensures var delay, next := RetryDelay(AnswerOf(w, n), c.inner), c.inner + 1;
            var played, x := Play(keyed, w, Sending(c.outer, next), n + 1), Exchange(Post, keyed, w, next, n + 1);
            && Play(keyed, w, c, n) == played.(paused := delay + played.paused)
            && Exchange(Post, keyed, w, c.inner, n) == x.(paused := delay + x.paused)
  {
    var next: Client<B> := Sending(c.outer, c.inner + 1);
    assert React(keyed, c, AnswerOf(w, n)) == Again(next, RetryDelay(AnswerOf(w, n), c.inner));
  }

  lemma ResumeLater<B>(keyed: bool, w: Script<B>, outer: nat, x: Exchanged<B>, delay: nat)
    requires 1 <= outer <= MAX_DECODE_ATTEMPTS
    ensures var r := Resume(keyed, w, outer, x);
            Resume(keyed, w, outer, x.(paused := delay + x.paused)) == r.(paused := delay + r.paused)
  {}

  lemma ExchangeEnds<B>(keyed: bool, w: Script<B>, c: Client<B>, n: nat)
    requires Ready(c) && FromNetwork(w)
    requires !(keyed && c.inner < MAX_ATTEMPTS && ShouldRetry(AnswerOf(w, n), keyed) && !CutBefore(w, n + 1))
    ensures Play(keyed, w, c, n) == Resume(keyed, w, c.outer, Exchange(Post, keyed, w, c.inner, n))
  {}

  class HttpClient<B> {
    const wire: Script<B>
    var sent: nat
    var paused: nat

    constructor (wire: Script<B>)
      ensures this.wire == wire && sent == 0 && paused == 0
    {
      this.wire, sent, paused := wire, 0, 0;
    }

    method Do() returns (a: Answer<B>)
      modifies this`sent
      ensures a == AnswerOf(wire, old(sent)) && sent == old(sent) + 1
    {
      a := AnswerOf(wire, sent);
      sent := sent + 1;
    }

    /** Sleeps for `delay` unless the context ends first. */
    method WaitForRetry(delay: nat) returns (cut: bool)
      modifies this`paused
      ensures cut == CutBefore(wire, sent)
      ensures paused == old(paused) + (if cut then 0 else delay)
    {
      cut := CutBefore(wire, sent);
      if !cut { paused := paused + delay; }
    }

    /** One request with its bounded retries. */
    method DoCtx(m: Method, keyed: bool) returns (a: Answer<B>)
      modifies this
      ensures paused >= old(paused)
      ensures Exchange(m, keyed, wire, 1, old(sent)) == Exchanged(a, sent, paused - old(paused))
      ensures !(m in {Get, Head, Delete} || keyed) ==> a == AnswerOf(wire, old(sent)) && sent == old(sent) + 1
      ensures m in {Get, Head, Delete} || keyed ==>
                forall k | 0 <= k < 3 && PassesBy(wire, keyed, old(sent), k) ::
                  AttemptEnds(wire, keyed, old(sent), k, a, sent)
    {
      ExchangePlays(m, keyed, wire, sent);
      ghost var whole := Exchange(m, keyed, wire, 1, sent);
      var attempt := 1;
      while true
        invariant 1 <= attempt <= MAX_ATTEMPTS && paused >= old(paused)
        invariant var rest := Exchange(m, keyed, wire, attempt, sent);
                  && whole.answer == rest.answer && whole.sent == rest.sent
                  && whole.paused == paused - old(paused) + rest.paused
        decreases MAX_ATTEMPTS - attempt
      {
        ghost var rest := Exchange(m, keyed, wire, attempt, sent);
        a := Do();
        if !Retryable(m, keyed) || attempt == MAX_ATTEMPTS || !ShouldRetry(a, keyed) {
          assert rest == Exchanged(a, sent, 0);
          return;
        }
        var cut := WaitForRetry(RetryDelay(a, attempt));
        if cut {
          assert rest == Exchanged(Cancelled, sent, 0);
          return Cancelled;
        }
        attempt := attempt + 1;
      }
    }

    /** POST /v1/tunnels with the decode replay. */
    method CreateTunnelCtx(keyed: bool) returns (tunnel: Option<B>)
      requires FromNetwork(wire)
      modifies this
      ensures paused >= old(paused)
      ensures keyed ==> KeyedEnds(wire, old(sent), tunnel, sent)
      ensures !keyed ==>
                var a := AnswerOf(wire, old(sent));
                tunnel == (if Is201(a) then a.decoded else None) && sent == old(sent) + 1 && paused == old(paused)
      ensures Play(keyed, wire, Sending(1, 1), old(sent)) == Played(tunnel, sent, paused - old(paused))
    {
      KeyedPlays(wire, sent);
      var attempt := 1;
      while true
        invariant 1 <= attempt <= MAX_DECODE_ATTEMPTS && paused >= old(paused)
        invariant var rest := Play(keyed, wire, Sending(attempt, 1), sent);
                  Play(keyed, wire, Sending(1, 1), old(sent)) == rest.(paused := paused - old(paused) + rest.paused)
        decreases MAX_DECODE_ATTEMPTS - attempt
      {
        ExchangeThenResume(keyed, wire, Sending(attempt, 1), sent);
        ghost var whole, start := Play(keyed, wire, Sending(attempt, 1), sent), paused;
        var resp := DoCtx(Post, keyed);
        if !Is201(resp) { return None; }
        if resp.decoded.Some? { return resp.decoded; }
        if !keyed || attempt == MAX_DECODE_ATTEMPTS { return None; }
        var cut := WaitForRetry(RetryDelay<B>(Failed, attempt));
        if cut { return None; }
        ghost var rest := Play(keyed, wire, Sending(attempt + 1, 1), sent);
        assert whole == rest.(paused := paused - start + rest.paused);
        attempt := attempt + 1;
      }
    }
  }
}
