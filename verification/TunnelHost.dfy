// Public hosts: the IDs the server issues, the domains it accepts, and the parser that takes a request's
// Host back to a tunnel ID. Characters are ASCII wherever a lemma says so.

module TunnelHost {
  import opened Prelude

  const ID_ALPHABET := "abcdefghjkmnpqrstuvwxyz23456789"
  const ID_BODY_LENGTH := 16
  const MAX_HOSTNAME_LENGTH := 253
  const MAX_TUNNEL_DOMAIN_LENGTH := 253 - 18 - 1

  // ----- strings -----

  predicate IsDigit(c: char) { '0' <= c <= '9' }
  predicate IsLower(c: char) { 'a' <= c <= 'z' }
  predicate IsUpper(c: char) { 'A' <= c <= 'Z' }

  predicate IsSpace(c: char) {
    c == ' ' || c == '\t' || c == '\n' || c == '\r' || c == '\U{0B}' || c == '\U{0C}'
  }

  predicate Ascii(s: string) {
    forall c :: c in s ==> c < '\U{80}'
  }

  function LowerChar(c: char): char {
    if IsUpper(c) then (c as int + 32) as char else c
  }

  function ToLower(s: string): (r: string)
    ensures |r| == |s| && forall i :: 0 <= i < |s| ==> r[i] == LowerChar(s[i])
  {
    seq(|s|, i requires 0 <= i < |s| => LowerChar(s[i]))
  }

  lemma ToLowerConcat(a: string, b: string)
    ensures ToLower(a + b) == ToLower(a) + ToLower(b)
  {}

  predicate ContainsAny(s: string, chars: string) {
    exists c :: c in s && c in chars
  }

  predicate HasSuffix(s: string, suffix: string) {
    |s| >= |suffix| && s[|s| - |suffix|..] == suffix
  }

  function TrimSuffix(s: string, suffix: string): string {
    if HasSuffix(s, suffix) then s[..|s| - |suffix|] else s
  }

  function Index(s: string, c: char): (i: int)
    ensures -1 <= i < |s|
    ensures i == -1 <==> c !in s
    ensures i >= 0 ==> s[i] == c && c !in s[..i]
  {
    if s == "" then -1
    else if s[0] == c then 0
    else
      var i := Index(s[1..], c);
      if i < 0 then -1 else
        assert s[..i + 1] == [s[0]] + s[1..][..i];
        i + 1
  }

  function LastIndex(s: string, c: char): (i: int)
    ensures -1 <= i < |s|
    ensures i == -1 <==> c !in s
    ensures i >= 0 ==> s[i] == c && c !in s[i + 1..]
  {
    if s == "" then -1
    else if s[|s| - 1] == c then |s| - 1
    else
      var i := LastIndex(s[..|s| - 1], c);
      assert s == s[..|s| - 1] + [s[|s| - 1]];
      if i >= 0 then assert s[i + 1..] == s[..|s| - 1][i + 1..] + [s[|s| - 1]]; i else i
  }

  lemma IndexIs(s: string, c: char, k: nat)
    requires k < |s| && s[k] == c && c !in s[..k]
    ensures Index(s, c) == k
  {
    var i := Index(s, c);
    assert forall j | 0 <= j < k :: s[j] in s[..k];
    assert forall j | 0 <= j < i :: s[j] in s[..i];
  }

  lemma LastIndexIs(s: string, c: char, k: nat)
    requires k < |s| && s[k] == c && c !in s[k + 1..]
    ensures LastIndex(s, c) == k
  {
    var i := LastIndex(s, c);
    assert forall j | k < j < |s| :: s[j] in s[k + 1..];
    assert forall j | i < j < |s| :: s[j] in s[i + 1..];
  }

  // ----- domains -----

  function Split(s: string): (labels: seq<string>)
    ensures |labels| > 0
  {
    var i := Index(s, '.');
    if i < 0 then [s] else [s[..i]] + Split(s[i + 1..])
  }

  predicate LabelChar(c: char) {
    IsLower(c) || IsUpper(c) || IsDigit(c) || c == '-'
  }

  predicate ValidLabel(part: string) {
    && 0 < |part| <= 63 && part[0] != '-' && part[|part| - 1] != '-'
    && forall c :: c in part ==> LabelChar(c)
  }

  predicate ValidHostname(s: string) {
    0 < |s| <= MAX_HOSTNAME_LENGTH && forall part :: part in Split(s) ==> ValidLabel(part)
  }

  /** A tunnel domain that passes validation. */
  predicate ValidDomain(domain: string) {
    ValidHostname(domain) && |domain| <= MAX_TUNNEL_DOMAIN_LENGTH
  }

  // ----- IDs -----

  predicate Issuable(id: string) {
    && |id| == 2 + ID_BODY_LENGTH && id[..2] == "t-"
    && forall i :: 2 <= i < |id| ==> id[i] in ID_ALPHABET
  }

  /** `draws` are the random indices, or None where the entropy source fails. */
  method GenerateTunnelID(draws: seq<Option<nat>>) returns (id: Option<string>)
    requires |draws| == ID_BODY_LENGTH
    requires forall i :: 0 <= i < |draws| && draws[i].Some? ==> draws[i].value < |ID_ALPHABET|
    ensures id.None? <==> None in draws
    ensures id.Some? ==> Issuable(id.value)
    ensures id.Some? ==> forall i :: 0 <= i < |draws| ==> id.value[2 + i] == ID_ALPHABET[draws[i].value]
  {
    var body := new char[ID_BODY_LENGTH](_ => '\0');
    for i := 0 to ID_BODY_LENGTH
      invariant None !in draws[..i]
      invariant forall j :: 0 <= j < i ==> draws[j].Some? && body[j] == ID_ALPHABET[draws[j].value]
    {
      if draws[i].None? { return None; }
      body[i] := ID_ALPHABET[draws[i].value];
    }
    assert draws == draws[..ID_BODY_LENGTH];
    return Some("t-" + body[..]);
  }

  // ----- the request host -----

  datatype HostPort = HostPort(host: string, port: string)

  /** net.SplitHostPort */
  function SplitHostPort(s: string): Option<HostPort> {
    var i := LastIndex(s, ':');
    if i < 0 then None
    else if s[0] == '[' then
      var end := Index(s, ']');
      if end < 0 || end + 1 != i then None
      else if '[' in s[1..] || ']' in s[end + 1..] then None
      else Some(HostPort(s[1..end], s[i + 1..]))
    else if ':' in s[..i] || '[' in s || ']' in s then None
    else Some(HostPort(s[..i], s[i + 1..]))
  }

  function DecimalValue(digits: string): nat {
    if digits == "" then 0
    else
      var d := digits[|digits| - 1];
      10 * DecimalValue(digits[..|digits| - 1]) + (if IsDigit(d) then d as int - '0' as int else 0)
  }

  /** strconv.ParseUint(port, 10, 16), and not zero. */
  predicate ValidPort(port: string) {
    port != "" && (forall c :: c in port ==> IsDigit(c)) && 0 < DecimalValue(port) < 65536
  }

  const BAD_HOST_CHARS := "/@ \t\r\n"
  const BAD_DOMAIN_CHARS := "/:@ \t\r\n"

  /** Host without its port. */
  function Unported(raw: string): Option<string> {
    if ':' !in raw then Some(raw)
    else
      match SplitHostPort(raw)
      case None => None
      case Some(hp) => if ValidPort(hp.port) then Some(hp.host) else None
  }

  function CanonicalRequestHost(raw: string): Option<string> {
    if raw == "" || IsSpace(raw[0]) || IsSpace(raw[|raw| - 1]) then None
    else
      match Unported(raw)
      case None => None
      case Some(h) =>
        var host := ToLower(TrimSuffix(h, "."));
        if host == "" || ContainsAny(host, BAD_HOST_CHARS) then None else Some(host)
  }

  predicate TunnelLabel(id: string) {
    && 3 <= |id| <= 63 && id[..2] == "t-"
    && forall i :: 0 <= i < |id| ==> IsLower(id[i]) || IsDigit(id[i]) || (id[i] == '-' && 0 < i < |id| - 1)
  }

  function TunnelIdFromHost(rawHost: string, rawDomain: string): Option<string> {
    match CanonicalRequestHost(rawHost)
    case None => None
    case Some(host) =>
      var domain := ToLower(TrimSuffix(rawDomain, "."));
      if domain == "" || ContainsAny(domain, BAD_DOMAIN_CHARS) then None
      else if !HasSuffix(host, "." + domain) then None
      else
        var id := TrimSuffix(host, "." + domain);
        if TunnelLabel(id) then Some(id) else None
  }

  // ----- hosts of issued tunnels -----

  function PublicHost(id: string, domain: string): string {
    id + "." + domain
  }

  predicate HostChar(c: char) {
    LabelChar(c) || c == '.'
  }

  lemma {:induction false} SplitChars(s: string, c: char)
    requires c in s && c != '.'
    ensures exists part :: part in Split(s) && c in part
  {
    var i := Index(s, '.');
    if i < 0 {
      assert s in Split(s);
    } else if c in s[..i] {
      assert s[..i] in Split(s);
    } else {
      assert s == s[..i] + ['.'] + s[i + 1..];
      SplitChars(s[i + 1..], c);
      var part :| part in Split(s[i + 1..]) && c in part;
      assert part in Split(s);
    }
  }

  lemma HostnameChars(s: string)
    requires ValidHostname(s)
    ensures forall c :: c in s ==> HostChar(c)
  {
    forall c | c in s ensures HostChar(c) {
      if c != '.' { SplitChars(s, c); }
    }
  }

  lemma SplitRest(s: string)
    requires '.' in s
    ensures Split(s) == [s[..Index(s, '.')]] + Split(s[Index(s, '.') + 1..])
  {}

  /** A trailing dot leaves an empty last label. */
  lemma {:induction false} TrailingDot(s: string)
    requires s != "" && s[|s| - 1] == '.'
    ensures "" in Split(s)
  {
    var rest := s[Index(s, '.') + 1..];
    SplitRest(s);
    if rest == "" {
      assert Split(rest)[0] == "";
    } else {
      TrailingDot(rest);
    }
  }

  lemma LastLabel(s: string)
    requires s != "" && forall part :: part in Split(s) ==> part != ""
    ensures s[|s| - 1] != '.'
  {
    if s[|s| - 1] == '.' { TrailingDot(s); }
  }

  lemma SplitFirst(part: string, rest: string)
    requires '.' !in part
    ensures Split(part + "." + rest) == [part] + Split(rest)
  {
    var s := part + "." + rest;
    assert s[..|part|] == part && s[|part| + 1..] == rest;
    IndexIs(s, '.', |part|);
  }

  lemma IssuableLabel(id: string)
    requires Issuable(id)
    ensures ValidLabel(id) && TunnelLabel(id) && '.' !in id && ToLower(id) == id
  {
    assert id[0] == id[..2][0] && id[1] == id[..2][1];
    forall i | 0 <= i < |id| ensures (IsLower(id[i]) || IsDigit(id[i]) || (i == 1 && id[i] == '-')) {
      if i >= 2 { AlphabetChars(id[i]); }
    }
  }

  lemma AlphabetChars(c: char)
    requires c in ID_ALPHABET
    ensures IsLower(c) || IsDigit(c)
  {}

  /** Every issued host is a valid hostname within the 253 bytes of a DNS name. */
  lemma PublicHostValid(id: string, domain: string)
    requires Issuable(id) && ValidDomain(domain)
    ensures ValidHostname(PublicHost(id, domain)) && |PublicHost(id, domain)| <= MAX_HOSTNAME_LENGTH
  {
    IssuableLabel(id);
    SplitFirst(id, domain);
  }

  lemma SpelledChars(written: string, host: string)
    requires ToLower(written) == ToLower(host) && forall c :: c in host ==> HostChar(c)
    ensures |written| == |host| && forall c :: c in written ==> HostChar(c)
    ensures host != "" && host[|host| - 1] != '.' ==> written[|written| - 1] != '.'
  {
    assert |ToLower(written)| == |written| && |ToLower(host)| == |host|;
    forall i | 0 <= i < |written| ensures HostChar(written[i]) && (written[i] == '.' ==> host[i] == '.') {
      assert LowerChar(written[i]) == ToLower(written)[i] == ToLower(host)[i] == LowerChar(host[i]);
      assert HostChar(host[i]);
    }
  }

  /** The port, if any, comes off without touching the rest. */
  lemma UnportedSpelling(name: string, port: string)
    requires name != "" && forall c :: c in name ==> HostChar(c)
    requires port == "" || (port[0] == ':' && ValidPort(port[1..]))
    ensures Unported(name + port) == Some(name)
  {
    var raw := name + port;
    if port == "" {
      assert raw == name && ':' !in name;
    } else {
      assert port == ":" + port[1..];
      assert raw[..|name|] == name && raw[|name| + 1..] == port[1..];
      LastIndexIs(raw, ':', |name|);
      assert '[' !in raw && ']' !in raw && ':' !in raw[..|name|];
    }
  }

  /** However a client writes an issued host, in any letter case, with or without a trailing dot and a
      port, it is taken back to its ID. */
  lemma HostRoundTrip(id: string, domain: string, written: string, dot: string, port: string)
    requires Issuable(id) && ValidDomain(domain)
    requires ToLower(written) == ToLower(PublicHost(id, domain)) && (dot == "" || dot == ".")
    requires port == "" || (port[0] == ':' && ValidPort(port[1..]))
    ensures TunnelIdFromHost(written + dot + port, domain) == Some(id)
  {
    var host := PublicHost(id, domain);
    PublicHostValid(id, domain);
    HostnameChars(host);
    LastLabel(host);
    SpelledChars(written, host);
    CanonicalSpelling(written, dot, port);
    DomainSuffix(id, domain);
  }

  function Decimal(n: nat): string {
    if n < 10 then [(n + 48) as char] else Decimal(n / 10) + [(n % 10 + 48) as char]
  }

  lemma {:induction false} DecimalReads(n: nat)
    ensures Decimal(n) != "" && (forall c :: c in Decimal(n) ==> IsDigit(c)) && DecimalValue(Decimal(n)) == n
  {
    if n >= 10 {
      DecimalReads(n / 10);
      assert Decimal(n)[..|Decimal(n)| - 1] == Decimal(n / 10);
    } else {
      assert Decimal(n)[..0] == "";
    }
  }

  /** A port written in decimal is accepted exactly from 1 to 65535, and the host is then taken back. */
  lemma PortRoundTrip(id: string, domain: string, written: string, dot: string, n: nat)
    requires Issuable(id) && ValidDomain(domain)
    requires ToLower(written) == ToLower(PublicHost(id, domain)) && (dot == "" || dot == ".")
    ensures TunnelIdFromHost(written + dot + ":" + Decimal(n), domain) ==
            if 1 <= n <= 65535 then Some(id) else None
  {
    var port := ":" + Decimal(n);
    DecimalReads(n);
    assert port[1..] == Decimal(n);
    assert written + dot + ":" + Decimal(n) == written + dot + port;
    if 1 <= n <= 65535 {
      HostRoundTrip(id, domain, written, dot, port);
    } else {
      PublicHostValid(id, domain);
      HostnameChars(PublicHost(id, domain));
      SpelledChars(written, PublicHost(id, domain));
      BadPortRefused(written + dot, Decimal(n));
    }
  }

  lemma BadPortRefused(name: string, digits: string)
    requires name != "" && (forall c :: c in name ==> HostChar(c))
    requires (forall c :: c in digits ==> IsDigit(c)) && !ValidPort(digits)
    ensures CanonicalRequestHost(name + ":" + digits) == None
  {
    var raw := name + ":" + digits;
    assert raw[..|name|] == name && raw[|name| + 1..] == digits && raw[|name|] == ':';
    LastIndexIs(raw, ':', |name|);
    assert raw[0] == name[0];
  }

  lemma SpellingEnds(name: string, port: string)
    requires name != "" && forall c :: c in name ==> HostChar(c)
    requires port == "" || (port[0] == ':' && ValidPort(port[1..]))
    ensures var raw := name + port; !IsSpace(raw[0]) && !IsSpace(raw[|raw| - 1])
  {
    assert HostChar(name[0]) && HostChar(name[|name| - 1]);
    if port != "" {
      assert port[|port| - 1] == port[1..][|port| - 2];
      assert IsDigit(port[|port| - 1]);
    }
  }

  lemma HostCharAllowed(c: char)
    requires HostChar(c)
    ensures c !in BAD_HOST_CHARS && c !in BAD_DOMAIN_CHARS && HostChar(LowerChar(c))
  {}

  lemma LowerHost(name: string)
    requires forall c :: c in name ==> HostChar(c)
    ensures !ContainsAny(ToLower(name), BAD_HOST_CHARS) && !ContainsAny(ToLower(name), BAD_DOMAIN_CHARS)
  {
    var lower := ToLower(name);
    forall c | c in lower ensures c !in BAD_HOST_CHARS && c !in BAD_DOMAIN_CHARS {
      var i :| 0 <= i < |lower| && lower[i] == c;
      HostCharAllowed(name[i]);
      HostCharAllowed(c);
    }
  }

  lemma TrimOneDot(written: string, dot: string)
    requires written != "" && written[|written| - 1] != '.' && (dot == "" || dot == ".")
    ensures TrimSuffix(written + dot, ".") == written
  {
    var s := written + dot;
    assert s[|s| - 1..][0] == s[|s| - 1];
    assert dot == "." ==> s[..|s| - 1] == written && s[|s| - 1..] == ".";
    assert dot == "" ==> s == written;
  }

  lemma CanonicalSpelling(written: string, dot: string, port: string)
    requires written != "" && written[|written| - 1] != '.' && (forall c :: c in written ==> HostChar(c))
    requires dot == "" || dot == "."
    requires port == "" || (port[0] == ':' && ValidPort(port[1..]))
    ensures CanonicalRequestHost(written + dot + port) == Some(ToLower(written))
  {
    SpellingEnds(written + dot, port);
    UnportedSpelling(written + dot, port);
    TrimOneDot(written, dot);
    LowerHost(written);
  }

  lemma DomainSuffix(id: string, domain: string)
    requires Issuable(id) && ValidDomain(domain)
    ensures var host := ToLower(PublicHost(id, domain));
            var d := ToLower(TrimSuffix(domain, "."));
            && d != "" && !ContainsAny(d, BAD_DOMAIN_CHARS)
            && HasSuffix(host, "." + d) && TrimSuffix(host, "." + d) == id && TunnelLabel(id)
  {
    IssuableLabel(id);
    HostnameChars(domain);
    LastLabel(domain);
    var d := ToLower(domain);
    assert TrimSuffix(domain, ".") == domain;
    ToLowerConcat(id, "." + domain);
    ToLowerConcat(".", domain);
    assert ToLower(".") == ".";
    assert PublicHost(id, domain) == id + ("." + domain);
    assert ToLower(PublicHost(id, domain)) == id + ("." + d);
    LowerHost(domain);
  }

  // ----- accepted hosts -----

  /** Conversely an accepted host, brackets, port, trailing dot and letter case aside, is exactly
      ID.domain, and its ID is one dot-free label. */
  lemma AcceptedIsPublicHost(raw: string, rawDomain: string, id: string)
    requires Ascii(raw) && TunnelIdFromHost(raw, rawDomain) == Some(id)
    ensures CanonicalRequestHost(raw) == Some(PublicHost(id, ToLower(TrimSuffix(rawDomain, "."))))
    ensures TunnelLabel(id) && '.' !in id
    ensures 3 <= |id| <= 63 && id[..2] == "t-" && id[|id| - 1] != '-'
    ensures forall c :: c in id ==> 'a' <= c <= 'z' || '0' <= c <= '9' || c == '-'
    ensures Shape(raw, PublicHost(id, ToLower(TrimSuffix(rawDomain, "."))))
  {
    var host := CanonicalRequestHost(raw).value;
    var suffix := "." + ToLower(TrimSuffix(rawDomain, "."));
    assert host == host[..|host| - |suffix|] + host[|host| - |suffix|..];
    assert host == id + suffix;
    assert PublicHost(id, ToLower(TrimSuffix(rawDomain, "."))) == id + suffix;
    LabelShape(id);
    CanonicalShape(raw);
  }

  lemma LabelShape(id: string)
    requires TunnelLabel(id)
    ensures '.' !in id && id[|id| - 1] != '-'
    ensures forall c :: c in id ==> 'a' <= c <= 'z' || '0' <= c <= '9' || c == '-'
  {}

  /** raw is host in some letter case, with at most one trailing dot, perhaps a port, and then perhaps
      brackets. */
  ghost predicate Shape(raw: string, host: string) {
    exists written, dot, port :: ShapedBy(raw, host, written, dot, port)
  }

  predicate ShapedBy(raw: string, host: string, written: string, dot: string, port: string) {
    && ToLower(written) == host && (dot == "" || dot == ".")
    && (port == "" || (port[0] == ':' && (forall c :: c in port[1..] ==> '0' <= c <= '9')
                       && 1 <= DecimalValue(port[1..]) <= 65535))
    && (raw == written + dot + port || (port != "" && raw == "[" + written + dot + "]" + port))
  }

  lemma UnportedShape(raw: string) returns (port: string)
    requires Unported(raw).Some?
    ensures port == "" || (port[0] == ':' && ValidPort(port[1..]))
    ensures raw == Unported(raw).value + port || (port != "" && raw == "[" + Unported(raw).value + "]" + port)
  {
    port := "";
    if ':' in raw {
      var i := LastIndex(raw, ':');
      port := raw[i..];
      assert port[1..] == raw[i + 1..];
      assert raw == raw[..i] + port;
      if raw[0] == '[' { BracketedHost(raw, i); }
    }
  }

  lemma BracketParts(s: string, end: nat)
    requires 0 < end < |s| && s[0] == '[' && s[end] == ']'
    ensures s[..end + 1] == "[" + s[1..end] + "]"
  {}

  lemma BracketedHost(raw: string, i: nat)
    requires SplitHostPort(raw).Some? && raw[0] == '[' && i == LastIndex(raw, ':')
    ensures raw[..i] == "[" + SplitHostPort(raw).value.host + "]"
  {
    var end := Index(raw, ']');
    assert SplitHostPort(raw).value.host == raw[1..end] && end + 1 == i;
    BracketParts(raw, end);
  }

  lemma OneDotTrimmed(h: string) returns (written: string, dot: string)
    ensures h == written + dot && (dot == "" || dot == ".") && TrimSuffix(h, ".") == written
  {
    written := TrimSuffix(h, ".");
    dot := h[|written|..];
  }

  lemma CanonicalShape(raw: string)
    requires CanonicalRequestHost(raw).Some?
    ensures Shape(raw, CanonicalRequestHost(raw).value)
  {
    var h := Unported(raw).value;
    var port := UnportedShape(raw);
    var written, dot := OneDotTrimmed(h);
    assert "[" + h + "]" == "[" + written + dot + "]";
    assert ShapedBy(raw, CanonicalRequestHost(raw).value, written, dot, port);
  }
}
