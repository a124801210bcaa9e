// Rows of the control-plane database and the constants the server fixes at start-up.

module Prelude {
  datatype Option<+T> = None | Some(value: T)
}

module Schema {
  import opened Prelude

  // PostgreSQL timestamps have microsecond resolution; times are microsecond counts.
  const SECOND: nat := 1_000_000
  const HOUR: nat := 3600 * SECOND
  const DAY: nat := 24 * HOUR

  datatype UserId = UserId(name: string)
  datatype TunnelId = TunnelId(name: string)

  /** Primary key of `idempotency_keys`: the API token and the client's header value. */
  datatype IdemKey = IdemKey(tokenId: string, key: string)

  /** SHA-256 of method, path, query and body; the constructor is taken as collision-free. */
  datatype Fingerprint = Fingerprint(digest: string)

  /** Stored token digest; again a collision-free constructor over the raw token. */
  datatype Digest = Sha256(raw: string)

  datatype Status = Reserved | Active | Closed | Expired | Revoked

  datatype Event = Created | NewProxy | CloseProxy | Expire | Revoke

  predicate NonTerminal(s: Status) {
    s.Reserved? || s.Active? || s.Closed?
  }

  /** `insertedAt` is the statement timestamp of the INSERT, from which `expiresAt` is computed;
      `createdAt` is the column default, the start of the transaction. */
  datatype Tunnel = Tunnel(user: UserId, status: Status, createdAt: nat, insertedAt: nat, expiresAt: nat)

  datatype RuntimeToken = RuntimeToken(tunnel: TunnelId, digest: Digest, expiresAt: nat, revokedAt: Option<nat>)

  /** Credential test of the plugin's lookup, without its join on the tunnel row. */
  predicate TokenAlive(r: RuntimeToken, now: nat) {
    r.revokedAt.None? && r.expiresAt > now
  }

  /** The set counted against a user's quota. */
  function NonTerminalOf(ts: map<TunnelId, Tunnel>, u: UserId): set<TunnelId> {
    set t | t in ts && ts[t].user == u && NonTerminal(ts[t].status)
  }

  function Usage(ts: map<TunnelId, Tunnel>, u: UserId): nat {
    |NonTerminalOf(ts, u)|
  }

  lemma SubsetSize<T>(a: set<T>, b: set<T>)
    requires a <= b
    ensures |a| <= |b|
  {
    assert b == a + (b - a);
  }
}
