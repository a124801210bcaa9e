// Choosing among stored credentials that share a token prefix. Both servers scan twice, current
// digests first, so that a legacy collision neither hides a valid token nor spends KDF capacity.

module TokenScan {
  import opened Prelude

  const CURRENT_PREFIX := "sha256:"

  datatype Candidate<+I> = Candidate(info: I, hash: string)

  /** What verifying the presented token against a candidate would come to. */
  datatype Verdict = Match | Mismatch | Failure

  datatype Check = Check(digestMatches: bool, legacy: Verdict)

  datatype Choice<+I> = Chosen(info: I) | NoMatch | VerifyFailed

  predicate UsesCurrentHash(hash: string) {
    CURRENT_PREFIX <= hash
  }

  /** Digests as they are stored now are told from both older formats, PHC strings and bare hex. */
  lemma FormatsToldApart(digest: string, rest: string, hex: string)
    requires forall c :: c in hex ==> '0' <= c <= '9' || 'a' <= c <= 'f' || 'A' <= c <= 'F'
    ensures UsesCurrentHash("sha256:" + digest)
    ensures !UsesCurrentHash("$argon2id$" + rest) && !UsesCurrentHash(hex)
  {
    assert |hex| > 0 ==> hex[0] in hex;
    assert ("$argon2id$" + rest)[0] == '$';
  }

  /** A current digest is compared at once and cannot fail; a legacy one may run out of capacity or time. */
  function VerdictOn(hash: string, check: Check): Verdict {
    if UsesCurrentHash(hash) then if check.digestMatches then Match else Mismatch else check.legacy
  }

  // ----- what is to be chosen -----

  predicate CurrentMatch<I>(cs: seq<Candidate<I>>, checks: seq<Check>, i: int)
    requires |checks| == |cs|
  {
    0 <= i < |cs| && UsesCurrentHash(cs[i].hash) && checks[i].digestMatches
  }

  /** A legacy candidate that ends the second pass. */
  predicate LegacyStop<I>(cs: seq<Candidate<I>>, checks: seq<Check>, i: int)
    requires |checks| == |cs|
  {
    0 <= i < |cs| && !UsesCurrentHash(cs[i].hash) && !checks[i].legacy.Mismatch?
  }

  ghost predicate FirstCurrent<I>(cs: seq<Candidate<I>>, checks: seq<Check>, i: int)
    requires |checks| == |cs|
  {
    CurrentMatch(cs, checks, i) && forall j :: j < i ==> !CurrentMatch(cs, checks, j)
  }

  ghost predicate FirstLegacyStop<I>(cs: seq<Candidate<I>>, checks: seq<Check>, i: int)
    requires |checks| == |cs|
  {
    LegacyStop(cs, checks, i) && forall j :: j < i ==> !LegacyStop(cs, checks, j)
  }

  ghost predicate AnyCurrent<I>(cs: seq<Candidate<I>>, checks: seq<Check>)
    requires |checks| == |cs|
  {
    exists i :: CurrentMatch(cs, checks, i)
  }

  /** The first current match; without one, the first legacy match not preceded by a failure; a failure
      only if it comes before any legacy match. */
  ghost predicate IsChoice<I>(cs: seq<Candidate<I>>, checks: seq<Check>, r: Choice<I>)
    requires |checks| == |cs|
  {
    match r
    case Chosen(info) =>
      || (exists i :: FirstCurrent(cs, checks, i) && cs[i].info == info)
      || (!AnyCurrent(cs, checks)
          && exists i :: FirstLegacyStop(cs, checks, i) && checks[i].legacy.Match? && cs[i].info == info)
    case VerifyFailed =>
      !AnyCurrent(cs, checks) && exists i :: FirstLegacyStop(cs, checks, i) && checks[i].legacy.Failure?
    case NoMatch => !AnyCurrent(cs, checks) && forall i :: !LegacyStop(cs, checks, i)
  }

  /** The candidates and their verdicts determine the choice, so any two scans meeting IsChoice agree. */
  lemma ChoiceIsUnique<I>(cs: seq<Candidate<I>>, checks: seq<Check>, a: Choice<I>, b: Choice<I>)
    requires |checks| == |cs| && IsChoice(cs, checks, a) && IsChoice(cs, checks, b)
    ensures a == b
  {
    forall i, j | FirstCurrent(cs, checks, i) && FirstCurrent(cs, checks, j) ensures i == j {}
    forall i, j | FirstLegacyStop(cs, checks, i) && FirstLegacyStop(cs, checks, j) ensures i == j {}
  }

  // ----- the scans -----

  /** VerifyTokenContext, counting the runs of the slow legacy function. */
  class Verifier {
    var legacyRuns: nat

    constructor ()
      ensures legacyRuns == 0
    {
      legacyRuns := 0;
    }

    method Verify(hash: string, check: Check) returns (v: Verdict)
      modifies this
      ensures v == VerdictOn(hash, check)
      ensures UsesCurrentHash(hash) ==> legacyRuns == old(legacyRuns)
    {
      if UsesCurrentHash(hash) { return if check.digestMatches then Match else Mismatch; }
      legacyRuns := legacyRuns + 1;
      return check.legacy;
    }
  }

  datatype Principal = Principal(tokenId: string, userId: string, isAdmin: bool)

  /** Filled in for the request log when authentication succeeds. */
  class AuthInfo {
    var principal: Option<Principal>

    constructor ()
      ensures principal.None?
    {
      principal := None;
    }
  }

  /** The API server's scan. */
  method AuthenticateRequest(
    cs: seq<Candidate<Principal>>, checks: seq<Check>, verifier: Verifier, container: AuthInfo?)
    returns (r: Choice<Principal>)
    requires |checks| == |cs|
    modifies verifier, container
    ensures IsChoice(cs, checks, r)
    ensures container != null ==>
              container.principal == if r.Chosen? then Some(r.info) else old(container.principal)
    ensures AnyCurrent(cs, checks) ==> verifier.legacyRuns == old(verifier.legacyRuns)
  {
    var passes := [true, false];
    for p := 0 to 2
      invariant p >= 1 ==> !AnyCurrent(cs, checks)
      invariant p >= 2 ==> forall i :: !LegacyStop(cs, checks, i)
      invariant container != null ==> container.principal == old(container.principal)
      invariant p < 2 ==> verifier.legacyRuns == old(verifier.legacyRuns)
    {
      var currentPass := passes[p];
      for i := 0 to |cs|
        invariant currentPass ==> forall j :: j < i ==> !CurrentMatch(cs, checks, j)
        invariant !currentPass ==> forall j :: j < i ==> !LegacyStop(cs, checks, j)
        invariant container != null ==> container.principal == old(container.principal)
        invariant currentPass ==> verifier.legacyRuns == old(verifier.legacyRuns)
      {
        if UsesCurrentHash(cs[i].hash) != currentPass { continue; }
        var v := verifier.Verify(cs[i].hash, checks[i]);
        if v.Failure? {
          assert FirstLegacyStop(cs, checks, i);
          return VerifyFailed;
        }
        if v.Match? {
          if container != null { container.principal := Some(cs[i].info); }
          assert if currentPass then FirstCurrent(cs, checks, i) else FirstLegacyStop(cs, checks, i);
          return Chosen(cs[i].info);
        }
      }
    }
    return NoMatch;
  }

  datatype TokenInfo = TokenInfo(tokenId: string, tunnelId: string)

  datatype TokenRow = TokenRow(id: string, tunnelId: string, hash: string)

  function CandidateOf(row: TokenRow): Candidate<TokenInfo> {
    Candidate(TokenInfo(row.id, row.tunnelId), row.hash)
  }

  function CandidatesOf(rows: seq<TokenRow>): seq<Candidate<TokenInfo>> {
    seq(|rows|, i requires 0 <= i < |rows| => CandidateOf(rows[i]))
  }

  /** The plugin server's scan: rows are read to the end before any verification. */
  method LookupRuntimeToken(rows: seq<TokenRow>, checks: seq<Check>, verifier: Verifier) returns (r: Choice<TokenInfo>)
    requires |checks| == |rows|
    modifies verifier
    ensures IsChoice(CandidatesOf(rows), checks, r)
    ensures AnyCurrent(CandidatesOf(rows), checks) ==> verifier.legacyRuns == old(verifier.legacyRuns)
  {
    var cs: seq<Candidate<TokenInfo>> := [];
    for i := 0 to |rows|
      invariant cs == CandidatesOf(rows)[..i]
    {
      cs := cs + [CandidateOf(rows[i])];
    }
    assert cs == CandidatesOf(rows);
    var passes := [true, false];
    for p := 0 to 2
      invariant p >= 1 ==> !AnyCurrent(cs, checks)
      invariant p >= 2 ==> forall i :: !LegacyStop(cs, checks, i)
      invariant p < 2 ==> verifier.legacyRuns == old(verifier.legacyRuns)
    {
      var currentPass := passes[p];
      for i := 0 to |cs|
        invariant currentPass ==> forall j :: j < i ==> !CurrentMatch(cs, checks, j)
        invariant !currentPass ==> forall j :: j < i ==> !LegacyStop(cs, checks, j)
        invariant currentPass ==> verifier.legacyRuns == old(verifier.legacyRuns)
      {
        if UsesCurrentHash(cs[i].hash) != currentPass { continue; }
        var v := verifier.Verify(cs[i].hash, checks[i]);
        if v.Failure? {
          assert FirstLegacyStop(cs, checks, i);
          return VerifyFailed;
        }
        if v.Match? {
          assert if currentPass then FirstCurrent(cs, checks, i) else FirstLegacyStop(cs, checks, i);
          return Chosen(cs[i].info);
        }
      }
    }
    return NoMatch;
  }

  /** Given the same digests and verdicts in the same order, both servers choose the same candidate. */
  lemma ServersAgree(
    cs: seq<Candidate<Principal>>, rows: seq<TokenRow>, checks: seq<Check>,
    api: Choice<Principal>, plugin: Choice<TokenInfo>)
    requires |cs| == |rows| == |checks| && (forall i :: 0 <= i < |cs| ==> cs[i].hash == rows[i].hash)
    requires IsChoice(cs, checks, api) && IsChoice(CandidatesOf(rows), checks, plugin)
    ensures api.NoMatch? <==> plugin.NoMatch?
    ensures api.VerifyFailed? <==> plugin.VerifyFailed?
    ensures api.Chosen? ==>
              exists i | 0 <= i < |cs| :: api.info == cs[i].info && plugin == Chosen(CandidatesOf(rows)[i].info)
  {
    var ps := CandidatesOf(rows);
    forall i ensures CurrentMatch(cs, checks, i) <==> CurrentMatch(ps, checks, i) {}
    forall i ensures LegacyStop(cs, checks, i) <==> LegacyStop(ps, checks, i) {}
    forall i ensures FirstCurrent(cs, checks, i) <==> FirstCurrent(ps, checks, i) {}
    forall i ensures FirstLegacyStop(cs, checks, i) <==> FirstLegacyStop(ps, checks, i) {}
  }

  /** A failure is reported only when no current digest matches. */
  lemma FailureMeansNoCurrent<I>(cs: seq<Candidate<I>>, checks: seq<Check>, i: int)
    requires |checks| == |cs| && CurrentMatch(cs, checks, i)
    ensures !IsChoice(cs, checks, VerifyFailed)
  {
    assert AnyCurrent(cs, checks);
  }
}
