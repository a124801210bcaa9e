// The bytes behind an idempotent replay: what the recorder keeps of a response, how it is sealed into a
// row and opened again, and the encodings that bind it to one request.

module ReplayCache {
  import opened Prelude

  type Byte = b: int | 0 <= b < 256
  type Bytes = seq<Byte>

  const NUL: Byte := 0
  const MAX_CACHED_BODY := 4096
  const NONCE_SIZE := 12

  /** "HWID1" */
  const PREFIX: Bytes := [72, 87, 73, 68, 49]

  // ----- recording a response -----

  datatype Action = Header(code: int) | Write(bytes: Bytes)

  /** Everything a handler wrote, in order. */
  function Written(actions: seq<Action>): Bytes {
    if actions == [] then []
    else
      var last := actions[|actions| - 1];
      Written(actions[..|actions| - 1]) + (if last.Write? then last.bytes else [])
  }

  /** The first action fixes the status: an explicit header, or 200 for a write. */
  function StatusOf(actions: seq<Action>): int {
    if actions == [] then 200 else if actions[0].Header? then actions[0].code else 200
  }

  lemma WrittenAppend(actions: seq<Action>, a: Action)
    ensures Written(actions + [a]) == Written(actions) + (if a.Write? then a.bytes else [])
    ensures StatusOf(actions + [a]) == if actions == [] then (if a.Header? then a.code else 200) else StatusOf(actions)
  {
    assert (actions + [a])[..|actions|] == actions;
  }

  /** What net/http lets a handler do. */
  predicate Allowed(actions: seq<Action>) {
    forall a :: a in actions && a.Header? ==> 100 <= a.code <= 999
  }

  class ResponseRecorder {
    var status: int
    var body: Bytes
    var tooLarge: bool
    /** Bytes passed on to the wrapped writer, that is, to the client. */
    var sent: Bytes
    ghost var actions: seq<Action>

    /** The fields are what the handler's actions so far call for. */
    ghost predicate Valid()
      reads this
    {
      && Allowed(actions)
      && status == (if actions == [] then 0 else StatusOf(actions))
      && tooLarge == (|Written(actions)| > MAX_CACHED_BODY)
      && body == (if tooLarge then [] else Written(actions))
      && sent == Written(actions)
    }

    constructor ()
      ensures Valid() && actions == []
    {
      status, body, tooLarge, sent, actions := 0, [], false, [], [];
    }

    method WriteHeader(code: int)
      requires Valid() && 100 <= code <= 999
      modifies this
      ensures Valid() && actions == old(actions) + [Header(code)]
    {
      WrittenAppend(actions, Header(code));
      actions := actions + [Header(code)];
      if status != 0 { return; }
      status := code;
    }

    method Write(b: Bytes)
      requires Valid()
      modifies this
      ensures Valid() && actions == old(actions) + [Action.Write(b)]
    {
      WrittenAppend(actions, Action.Write(b));
      actions := actions + [Action.Write(b)];
      if status == 0 { status := 200; }
      if !tooLarge {
        if |body| + |b| > MAX_CACHED_BODY {
          tooLarge := true;
          body := [];
        } else {
          body := body + b;
        }
      }
      sent := sent + b;
    }
  }

  /** Runs a handler, given as its actions, against a fresh recorder. */
  method CaptureResponse(handler: seq<Action>) returns (rec: ResponseRecorder)
    requires Allowed(handler)
    ensures fresh(rec)
    ensures rec.status == StatusOf(handler)
    ensures rec.tooLarge <==> |Written(handler)| > MAX_CACHED_BODY
    ensures rec.body == (if rec.tooLarge then [] else Written(handler))
    ensures rec.sent == Written(handler)
  {
    rec := new ResponseRecorder();
    for i := 0 to |handler|
      invariant fresh(rec) && rec.Valid() && rec.actions == handler[..i]
    {
      match handler[i] {
        case Header(code) => rec.WriteHeader(code);
        case Write(bytes) => rec.Write(bytes);
      }
    }
    assert handler[..|handler|] == handler;
    if rec.status == 0 { rec.status := 200; }
  }

  // ----- encodings -----

  function Digits(n: nat): (d: Bytes)
    ensures |d| > 0 && forall b :: b in d ==> 48 <= b <= 57
  {
    if n < 10 then [48 + n] else Digits(n / 10) + [48 + n % 10]
  }

  /** %d */
  function Decimal(n: int): Bytes {
    if n < 0 then [45] + Digits(-n) else Digits(n)
  }

  function AssociatedData(tokenId: Bytes, key: Bytes, status: int): Bytes {
    tokenId + [NUL] + key + [NUL] + Decimal(status)
  }

  function HashedRequest(httpMethod: Bytes, path: Bytes, query: Bytes, body: Bytes): Bytes {
    httpMethod + [NUL] + path + [NUL] + query + [NUL] + body
  }

  predicate NulFree(b: Bytes) {
    NUL !in b
  }

  lemma {:induction false} DigitsInjective(m: nat, n: nat)
    requires Digits(m) == Digits(n)
    ensures m == n
  {
    var d, e := Digits(m), Digits(n);
    assert d[|d| - 1] == 48 + m % 10 && e[|e| - 1] == 48 + n % 10;
    if m >= 10 && n >= 10 {
      assert d[..|d| - 1] == Digits(m / 10) && e[..|e| - 1] == Digits(n / 10);
      DigitsInjective(m / 10, n / 10);
    }
  }

  lemma DecimalInjective(m: int, n: int)
    requires Decimal(m) == Decimal(n)
    ensures m == n
  {
    assert m >= 0 ==> Digits(m)[0] in Digits(m);
    assert n >= 0 ==> Digits(n)[0] in Digits(n);
    assert Decimal(m)[0] == Decimal(n)[0];
    if m < 0 {
      assert Decimal(m)[1..] == Digits(-m) && Decimal(n)[1..] == Digits(-n);
      DigitsInjective(-m, -n);
    } else {
      DigitsInjective(m, n);
    }
  }

  lemma DecimalNulFree(n: int)
    ensures NulFree(Decimal(n))
  {}

  /** The first NUL separates a NUL-free head from whatever follows. */
  lemma SplitAtFirstNul(a: Bytes, rest: Bytes, b: Bytes, other: Bytes)
    requires NulFree(a) && NulFree(b) && a + [NUL] + rest == b + [NUL] + other
    ensures a == b && rest == other
  {
    var s := a + [NUL] + rest;
    assert s[|a|] == NUL && s[|b|] == NUL;
    assert forall i | 0 <= i < |a| :: s[i] != NUL;
    assert forall i | 0 <= i < |b| :: s[i] != NUL;
    assert s[..|a|] == a && s[..|b|] == b;
    assert s[|a| + 1..] == rest && s[|b| + 1..] == other;
  }

  /** The last NUL separates a NUL-free tail from whatever precedes. */
  lemma SplitAtLastNul(head: Bytes, a: Bytes, other: Bytes, b: Bytes)
    requires NulFree(a) && NulFree(b) && head + [NUL] + a == other + [NUL] + b
    ensures head == other && a == b
  {
    var s := head + [NUL] + a;
    assert s[|head|] == NUL && s[|other|] == NUL;
    assert forall i | |head| < i < |s| :: s[i] != NUL;
    assert forall i | |other| < i < |s| :: s[i] != NUL;
    assert s[..|head|] == head && s[..|other|] == other;
    assert s[|head| + 1..] == a && s[|other| + 1..] == b;
  }

  /** The associated data determines token, key and status, whatever bytes the key holds. */
  lemma AssociatedDataInjective(t: Bytes, k: Bytes, s: int, t': Bytes, k': Bytes, s': int)
    requires NulFree(t) && NulFree(t') && AssociatedData(t, k, s) == AssociatedData(t', k', s')
    ensures t == t' && k == k' && s == s'
  {
    DecimalNulFree(s);
    DecimalNulFree(s');
    SplitAtLastNul(t + [NUL] + k, Decimal(s), t' + [NUL] + k', Decimal(s'));
    SplitAtFirstNul(t, k, t', k');
    DecimalInjective(s, s');
  }

  /** The hashed bytes determine method, path, query and body, whatever bytes the body holds. */
  lemma HashedRequestInjective(m: Bytes, p: Bytes, q: Bytes, b: Bytes, m': Bytes, p': Bytes, q': Bytes, b': Bytes)
    requires NulFree(m) && NulFree(p) && NulFree(q) && NulFree(m') && NulFree(p') && NulFree(q')
    requires HashedRequest(m, p, q, b) == HashedRequest(m', p', q', b')
    ensures m == m' && p == p' && q == q' && b == b'
  {
    var tail, tail' := q + [NUL] + b, q' + [NUL] + b';
    var rest, rest' := p + [NUL] + tail, p' + [NUL] + tail';
    assert HashedRequest(m, p, q, b) == m + [NUL] + rest;
    assert HashedRequest(m', p', q', b') == m' + [NUL] + rest';
    SplitAtFirstNul(m, rest, m', rest');
    SplitAtFirstNul(p, tail, p', tail');
    SplitAtFirstNul(q, b, q', b');
  }

  // ----- sealing -----

  /** An AEAD under a fixed secret: encryption and authenticated decryption. */
  datatype Aead = Aead(encrypt: (Bytes, Bytes, Bytes) -> Bytes, decrypt: (Bytes, Bytes, Bytes) -> Option<Bytes>)

  function Encrypt(c: Aead, nonce: Bytes, plain: Bytes, aad: Bytes): Bytes {
    c.encrypt(nonce, plain, aad)
  }

  function Decrypt(c: Aead, nonce: Bytes, cipher: Bytes, aad: Bytes): Option<Bytes> {
    c.decrypt(nonce, cipher, aad)
  }

  /** The interface contract of section 2 of RFC 5116, idealised: decryption yields a plaintext exactly
      for what encryption produced from it, and no two inputs under one nonce encrypt alike. */
  ghost predicate Ideal(c: Aead) {
    && (forall n, p, a :: Decrypt(c, n, Encrypt(c, n, p, a), a) == Some(p))
    && (forall n, x, a :: Decrypt(c, n, x, a).Some? ==> x == Encrypt(c, n, Decrypt(c, n, x, a).value, a))
    && (forall n, p, a, p', a' :: Encrypt(c, n, p, a) == Encrypt(c, n, p', a') ==> p == p' && a == a')
  }

  function Seal(c: Aead, nonce: Bytes, tokenId: Bytes, key: Bytes, status: int, plain: Bytes): Bytes
    requires |nonce| == NONCE_SIZE
  {
    PREFIX + nonce + Encrypt(c, nonce, plain, AssociatedData(tokenId, key, status))
  }

  function Open(c: Aead, tokenId: Bytes, key: Bytes, status: int, stored: Bytes): Option<Bytes> {
    if !(PREFIX <= stored) then Some(stored)
    else
      var payload := stored[|PREFIX|..];
      if |payload| < NONCE_SIZE then None
      else Decrypt(c, payload[..NONCE_SIZE], payload[NONCE_SIZE..], AssociatedData(tokenId, key, status))
  }

  /** A sealed response opens to its bytes under its own token, key and status, and under no other. */
  lemma SealOpens(c: Aead, nonce: Bytes, t: Bytes, k: Bytes, s: int, plain: Bytes, t': Bytes, k': Bytes, s': int)
    requires Ideal(c) && |nonce| == NONCE_SIZE && NulFree(t) && NulFree(t')
    ensures Open(c, t', k', s', Seal(c, nonce, t, k, s, plain)) ==
            if t' == t && k' == k && s' == s then Some(plain) else None
  {
    var stored := Seal(c, nonce, t, k, s, plain);
    var payload := stored[|PREFIX|..];
    var cipher := Encrypt(c, nonce, plain, AssociatedData(t, k, s));
    assert PREFIX <= stored;
    assert payload == nonce + cipher && payload[..NONCE_SIZE] == nonce && payload[NONCE_SIZE..] == cipher;
    if Decrypt(c, nonce, cipher, AssociatedData(t', k', s')).Some? {
      AssociatedDataInjective(t, k, s, t', k', s');
    }
  }

  // ----- from a handler's response to a later replay -----

  datatype Row = Released | Completed(status: int, body: Option<Bytes>)

  predicate Success(status: int) {
    200 <= status < 300
  }

  /** The row a recorded response leaves, when its bookkeeping write succeeds. */
  method PersistCompletion(rec: ResponseRecorder, c: Aead, nonce: Bytes, tokenId: Bytes, key: Bytes) returns (row: Row)
    requires |nonce| == NONCE_SIZE
    ensures row == Persisted(c, nonce, tokenId, key, rec.status, if rec.tooLarge then None else Some(rec.body))
  {
    if rec.status < 200 || rec.status >= 300 { return Released; }
    if rec.tooLarge { return Completed(rec.status, None); }
    var sealedBody := Seal(c, nonce, tokenId, key, rec.status, rec.body);
    return Completed(rec.status, Some(sealedBody));
  }

  function Persisted(c: Aead, nonce: Bytes, tokenId: Bytes, key: Bytes, status: int, body: Option<Bytes>): Row
    requires |nonce| == NONCE_SIZE
  {
    if !Success(status) then Released
    else Completed(status, if body.None? then None else Some(Seal(c, nonce, tokenId, key, status, body.value)))
  }

  datatype Replay = Replayed(status: int, body: Bytes) | Vanished | Unavailable

  /** Serving an existing row to a request with its fingerprint. */
  function ServeExisting(c: Aead, tokenId: Bytes, key: Bytes, row: Row): Replay {
    match row
    case Released => Vanished
    case Completed(status, body) =>
      if body.None? then Unavailable
      else
        match Open(c, tokenId, key, status, body.value)
        case None => Unavailable
        case Some(plain) => Replayed(status, plain)
  }

  /** Captured, persisted and served, a successful response of at most 4096 bytes is replayed byte for
      byte with its status, a larger one is reported unavailable, and an error leaves nothing. */
  lemma FaithfulReplay(handler: seq<Action>, c: Aead, nonce: Bytes, tokenId: Bytes, key: Bytes)
    requires Ideal(c) && |nonce| == NONCE_SIZE && NulFree(tokenId)
    ensures var kept := if |Written(handler)| > MAX_CACHED_BODY then None else Some(Written(handler));
            ServeExisting(c, tokenId, key, Persisted(c, nonce, tokenId, key, StatusOf(handler), kept)) ==
              if !Success(StatusOf(handler)) then Vanished
              else if |Written(handler)| > MAX_CACHED_BODY then Unavailable
              else Replayed(StatusOf(handler), Written(handler))
  {
    var status := StatusOf(handler);
    SealOpens(c, nonce, tokenId, key, status, Written(handler), tokenId, key, status);
  }

  /** A row written before encryption was added is replayed as it is. */
  lemma LegacyRowReplays(c: Aead, tokenId: Bytes, key: Bytes, status: int, stored: Bytes)
    requires |stored| > 0 && stored[0] != PREFIX[0]
    ensures ServeExisting(c, tokenId, key, Completed(status, Some(stored))) == Replayed(status, stored)
  {}
}
