/**
 Verification of signed requests against a nonce store, over whole runs. Hashing, the keyed digest and
 upper-casing are parameters; of the keyed digest only its length of 32 bytes is used.
 */
module RequestVerification {
  import opened Common
  import opened ServiceAuth
  import Decimal

  type Body = seq<Byte>

  datatype Crypto = Crypto(upper: string -> string, sha256Hex: Body -> string, hmac: (string, string) -> seq<Byte>)

  ghost predicate DigestsOk(x: Crypto) { forall key, payload :: |x.hmac(key, payload)| == 32 }

  datatype Keys = Keys(agentToFactory: string, factoryToAgent: string, previousAgent: Option<string>, previousFactory: Option<string>)

  datatype Config = Config(crypto: Crypto, keys: Keys, maxSkew: int, ttl: int)

  /** `keyId` and trimmed nonce, with the time at which the row expires. */
  type Nonces = map<(string, string), int>

  datatype Request = Request(direction: Direction, verb: string, path: string, body: Body, header: Option<string>)

  datatype AuthError =
    | HeaderRequired | HeaderMalformed | UnknownKey | InvalidTimestamp | TimestampSkew
    | NonceRequired | NonceTooLong | SignatureMismatch | NonceReplayed

  const MAX_SAFE_INTEGER: nat := 9007199254740991
  const MAX_NONCE_LENGTH: nat := 128

  // ---------------------------------------------------------------- signing

  function CurrentKey(k: Keys, d: Direction): string {
    match d case AgentToFactory => k.agentToFactory case FactoryToAgent => k.factoryToAgent
  }

  /** An empty previous key counts as none. */
  function VerificationKeys(k: Keys, d: Direction): (r: seq<string>)
    ensures CurrentKey(k, d) in r
  {
    var previous := match d case AgentToFactory => k.previousAgent case FactoryToAgent => k.previousFactory;
    if previous.Some? && previous.value != "" then [CurrentKey(k, d), previous.value] else [CurrentKey(k, d)]
  }

  function Payload(x: Crypto, d: Direction, timestamp: string, nonce: string, verb: string, path: string, body: Body): string {
    JoinLines(["1", KeyId(d), timestamp, nonce, x.upper(verb), path, x.sha256Hex(body)])
  }

  function Sign(x: Crypto, key: string, r: Request, now: nat, nonce: string): SignedRequest {
    var timestamp := Decimal.ToDecimal(now);
    SignedRequest(KeyId(r.direction), timestamp, nonce,
                  Hex(x.hmac(key, Payload(x, r.direction, timestamp, nonce, r.verb, r.path, r.body))))
  }

  // ---------------------------------------------------------------- the nonce store

  function TrimEnd(s: string): string { if s != [] && IsSpace(s[|s| - 1]) then TrimEnd(s[..|s| - 1]) else s }

  function Trim(s: string): string { TrimEnd(SkipSpaces(s)) }

  function Unexpired(n: Nonces, now: int): Nonces { map k | k in n && n[k] > now :: n[k] }

  /** One transaction: drop what has expired, then insert unless the row is there. */
  function ConsumeNonce(n: Nonces, ttl: int, keyId: string, nonce: string, now: int): (Nonces, bool) {
    var kept := Unexpired(n, now);
    if (keyId, Trim(nonce)) in kept then (kept, false) else (kept[(keyId, Trim(nonce)) := now + ttl], true)
  }

  /** Trimming drops exactly the white space at both ends. */
  lemma {:induction false} TrimEndExactly(s: string)
    ensures TrimEnd(s) <= s && AllSpaces(s[|TrimEnd(s)|..])
    ensures TrimEnd(s) != [] ==> !IsSpace(TrimEnd(s)[|TrimEnd(s)| - 1])
    decreases |s|
  {
    if s != [] && IsSpace(s[|s| - 1]) {
      TrimEndExactly(s[..|s| - 1]);
      var kept := |TrimEnd(s)|;
      assert s[kept..] == s[..|s| - 1][kept..] + [s[|s| - 1]];
    }
  }

  lemma {:induction false} SkippedExactly(s: string)
    ensures SkipSpaces(s) != [] ==> !IsSpace(SkipSpaces(s)[0])
    decreases |s|
  {
    if s != [] && IsSpace(s[0]) {
      SkippedExactly(s[1..]);
    }
  }

  lemma TrimExactly(s: string) returns (before: string, after: string)
    ensures s == before + Trim(s) + after && AllSpaces(before) && AllSpaces(after)
    ensures Trim(s) != [] ==> !IsSpace(Trim(s)[0]) && !IsSpace(Trim(s)[|Trim(s)| - 1])
  {
    var rest := SkipSpaces(s);
    SkippedAreSpaces(s);
    SkippedExactly(s);
    before :| AllSpaces(before) && s == before + rest;
    TrimEndExactly(rest);
    after := rest[|Trim(s)|..];
    assert rest == Trim(s) + after;
  }

  // ---------------------------------------------------------------- verifying

  predicate TimestampShape(s: string) { 1 <= |s| <= 16 && Decimal.AllDigits(s) }

  /** The checks before the nonce is consumed, in the order they are made. */
  function Checked(cfg: Config, r: Request, now: int): Result<SignedRequest, AuthError> {
    if r.header.None? || r.header.value == "" then Err(HeaderRequired)
    else
      match Parse(r.header.value)
      case None => Err(HeaderMalformed)
      case Some(p) => CheckedParsed(cfg, r, p, now)
  }

  function CheckedParsed(cfg: Config, r: Request, p: SignedRequest, now: int): Result<SignedRequest, AuthError> {
    if p.keyId != KeyId(r.direction) then Err(UnknownKey)
    else if !TimestampShape(p.timestamp) || Decimal.FromDecimal(p.timestamp) > MAX_SAFE_INTEGER then Err(InvalidTimestamp)
    else
      var skew := now - Decimal.FromDecimal(p.timestamp);
      if skew > cfg.maxSkew || -skew > cfg.maxSkew then Err(TimestampSkew)
      else if Trim(p.nonce) == "" then Err(NonceRequired)
      else if |p.nonce| > MAX_NONCE_LENGTH then Err(NonceTooLong)
      else if !SignatureShape(p.signature) then Err(SignatureMismatch)
      else if !SignatureMatches(cfg, r, p) then Err(SignatureMismatch)
      else Ok(p)
  }

  predicate SignatureMatches(cfg: Config, r: Request, p: SignedRequest)
    requires SignatureShape(p.signature)
  {
    var payload := Payload(cfg.crypto, r.direction, p.timestamp, p.nonce, r.verb, r.path, r.body);
    exists i :: 0 <= i < |VerificationKeys(cfg.keys, r.direction)|
                && cfg.crypto.hmac(VerificationKeys(cfg.keys, r.direction)[i], payload) == Unhex(p.signature)
  }

  function Verify(cfg: Config, n: Nonces, r: Request, now: int): (Nonces, Option<AuthError>) {
    match Checked(cfg, r, now)
    case Err(e) => (n, Some(e))
    case Ok(p) =>
      var (n', first) := ConsumeNonce(n, cfg.ttl, p.keyId, p.nonce, now);
      (n', if first then None else Some(NonceReplayed))
  }

  predicate Accepts(cfg: Config, n: Nonces, r: Request, now: int) { Verify(cfg, n, r, now).1 == None }

  // ---------------------------------------------------------------- signed requests are accepted

  predicate NonceOk(nonce: string) { FieldOk(nonce) && Trim(nonce) != "" && |nonce| <= MAX_NONCE_LENGTH }

  lemma TimestampPrints(now: nat)
    requires now <= MAX_SAFE_INTEGER
    ensures TimestampShape(Decimal.ToDecimal(now)) && Decimal.FromDecimal(Decimal.ToDecimal(now)) == now
    ensures FieldOk(Decimal.ToDecimal(now))
  {
    Decimal.RoundTrip(now);
    SixteenDigits();
    Decimal.LengthBound(now, 16);
    assert forall i :: 0 <= i < |Decimal.ToDecimal(now)| ==> Decimal.IsDigit(Decimal.ToDecimal(now)[i]);
  }

  lemma SixteenDigits()
    ensures Decimal.Power(16) == 10000000000000000
  {
    assert Decimal.Power(4) == 10000;
    assert Decimal.Power(8) == 10000 * Decimal.Power(4);
    assert Decimal.Power(12) == 10000 * Decimal.Power(8);
    assert Decimal.Power(16) == 10000 * Decimal.Power(12);
  }

  lemma SignedFieldsOk(x: Crypto, key: string, r: Request, now: nat, nonce: string)
    requires DigestsOk(x) && now <= MAX_SAFE_INTEGER && FieldOk(nonce)
    ensures FieldsOk(Sign(x, key, r, now, nonce)) && SignatureShape(Sign(x, key, r, now, nonce).signature)
  {
    TimestampPrints(now);
    var signature := Sign(x, key, r, now, nonce).signature;
    assert |signature| == 64;
    assert ',' !in signature by {
      assert forall i :: 0 <= i < |signature| ==> IsHex(signature[i]);
    }
  }

  lemma FormatNonempty(r: SignedRequest)
    ensures Format(r) != ""
  {
  }

  lemma ParsedChecks(cfg: Config, r: Request, header: string, p: SignedRequest, now: int)
    requires r.header == Some(header) && header != "" && Parse(header) == Some(p)
    ensures Checked(cfg, r, now) == CheckedParsed(cfg, r, p, now)
  {
  }

  lemma SignedIsAuthentic(cfg: Config, key: string, r: Request, at: nat, nonce: string, now: int)
    requires DigestsOk(cfg.crypto) && key in VerificationKeys(cfg.keys, r.direction)
    requires at <= MAX_SAFE_INTEGER && -cfg.maxSkew <= now - at <= cfg.maxSkew && NonceOk(nonce)
    ensures Authentic(cfg, r, Sign(cfg.crypto, key, r, at, nonce), now)
  {
    var signed := Sign(cfg.crypto, key, r, at, nonce);
    SignedFieldsOk(cfg.crypto, key, r, at, nonce);
    TimestampPrints(at);
    KeysExactly(cfg.keys, r.direction, key);
    UnhexHex(cfg.crypto.hmac(key, SignedText(cfg.crypto, r, signed)));
  }

  /** A request signed under the current or the previous key, with a well-formed fresh nonce and a clock
      within the skew, passes through formatting, parsing and verification. */
  lemma SignedIsAccepted(cfg: Config, n: Nonces, key: string, r: Request, at: nat, nonce: string, now: int)
    requires DigestsOk(cfg.crypto) && key in VerificationKeys(cfg.keys, r.direction)
    requires at <= MAX_SAFE_INTEGER && -cfg.maxSkew <= now - at <= cfg.maxSkew
    requires NonceOk(nonce) && (KeyId(r.direction), Trim(nonce)) !in Unexpired(n, now)
    requires r.header == Some(Format(Sign(cfg.crypto, key, r, at, nonce)))
    ensures Accepts(cfg, n, r, now)
  {
    var signed := Sign(cfg.crypto, key, r, at, nonce);
    SignedFieldsOk(cfg.crypto, key, r, at, nonce);
    FormatNonempty(signed);
    FormatParse(signed);
    SignedIsAuthentic(cfg, key, r, at, nonce, now);
    AcceptsExactly(cfg, n, r, signed, now);
  }

  // ---------------------------------------------------------------- whole runs

  /** A request at some time, or the deletion of rows that have expired. */
  datatype Event = Arrives(request: Request, now: int) | Purged(keys: set<(string, string)>, now: int)

  datatype Acceptance = Acceptance(header: string, parsed: SignedRequest, at: int)

  datatype State = State(nonces: Nonces, clock: int, accepted: seq<Acceptance>)

  function Time(e: Event): int { e.now }

  function Step(cfg: Config, s: State, e: Event): State {
    match e
    case Purged(keys, now) =>
      State(map k | k in s.nonces && !(k in keys && s.nonces[k] <= now) :: s.nonces[k], now, s.accepted)
    case Arrives(r, now) =>
      var (n, failed) := Verify(cfg, s.nonces, r, now);
      State(n, now,
            if failed.None? && r.header.Some? && Parse(r.header.value).Some?
            then s.accepted + [Acceptance(r.header.value, Parse(r.header.value).value, now)] else s.accepted)
  }

  function Run(cfg: Config, s: State, es: seq<Event>): State
    decreases |es|
  {
    if es == [] then s else Step(cfg, Run(cfg, s, es[..|es| - 1]), es[|es| - 1])
  }

  /** The clock does not go backwards. */
  predicate Monotone(start: int, es: seq<Event>) {
    forall i :: 0 <= i < |es| ==> ClockBefore(start, es, i) <= es[i].now
  }

  function ClockBefore(start: int, es: seq<Event>, i: nat): int
    requires i <= |es|
  {
    if i == 0 then start else es[i - 1].now
  }

  function Stamp(a: Acceptance): nat
    requires Decimal.AllDigits(a.parsed.timestamp)
  {
    Decimal.FromDecimal(a.parsed.timestamp)
  }

  /** An accepted request is remembered until its time to live has passed. */
  predicate Remembered(cfg: Config, s: State, a: Acceptance) {
    && Parse(a.header) == Some(a.parsed) && Decimal.AllDigits(a.parsed.timestamp)
    && -cfg.maxSkew <= a.at - Stamp(a) <= cfg.maxSkew && a.at <= s.clock
    && var key := (a.parsed.keyId, Trim(a.parsed.nonce));
       (key in s.nonces && s.nonces[key] >= a.at + cfg.ttl) || s.clock >= a.at + cfg.ttl
  }

  /** What a signature speaks for: another spelling of the header (spaces, digits of the digest in upper
      case) carries the same identity. */
  function Identity(a: Acceptance): (string, string, string) {
    (a.parsed.keyId, a.parsed.timestamp, Trim(a.parsed.nonce))
  }

  /** No identity is accepted twice, and so no header text either. */
  predicate OnceEach(log: seq<Acceptance>) {
    forall i, j :: 0 <= i < j < |log| ==> Identity(log[i]) != Identity(log[j]) && log[i].header != log[j].header
  }

  predicate Remembers(cfg: Config, s: State) {
    && OnceEach(s.accepted)
    && forall i :: 0 <= i < |s.accepted| ==> Remembered(cfg, s, s.accepted[i])
  }

  lemma PurgeKeeps(cfg: Config, s: State, e: Event)
    requires Remembers(cfg, s) && e.Purged? && s.clock <= e.now
    ensures Remembers(cfg, Step(cfg, s, e))
  {
    var s' := Step(cfg, s, e);
    forall i | 0 <= i < |s'.accepted| ensures Remembered(cfg, s', s'.accepted[i]) {
      assert Remembered(cfg, s, s.accepted[i]);
    }
  }

  lemma EarlierKept(cfg: Config, s: State, e: Event, a: Acceptance)
    requires Remembered(cfg, s, a) && e.Arrives? && s.clock <= e.now
    ensures Remembered(cfg, Step(cfg, s, e), a)
  {
  }

  /** A second acceptance of an identity would come before its nonce may be forgotten. */
  lemma NotAgain(cfg: Config, s: State, r: Request, now: int, a: Acceptance)
    requires 2 * cfg.maxSkew < cfg.ttl && Remembered(cfg, s, a) && s.clock <= now
    requires r.header.Some? && Parse(r.header.value).Some?
    requires Identity(Acceptance(r.header.value, Parse(r.header.value).value, now)) == Identity(a)
    ensures !Accepts(cfg, s.nonces, r, now)
  {
    if Checked(cfg, r, now).Ok? {
      var stamp := Stamp(a);
      assert now - stamp <= cfg.maxSkew && stamp - a.at <= cfg.maxSkew;
      assert (a.parsed.keyId, Trim(a.parsed.nonce)) in Unexpired(s.nonces, now);
    }
  }

  /** What one request adds to the log, and that it was accepted. */
  lemma ArrivalLogs(cfg: Config, s: State, e: Event)
    requires e.Arrives?
    ensures var s' := Step(cfg, s, e);
            || s'.accepted == s.accepted
            || (e.request.header.Some? && Accepts(cfg, s.nonces, e.request, e.now)
                && |s'.accepted| == |s.accepted| + 1 && s'.accepted[..|s.accepted|] == s.accepted
                && Parse(e.request.header.value).Some?
                && s'.accepted[|s.accepted|] == Acceptance(e.request.header.value, Parse(e.request.header.value).value, e.now))
  {
  }

  lemma NewlyRemembered(cfg: Config, s: State, e: Event)
    requires e.Arrives? && Step(cfg, s, e).accepted != s.accepted
    ensures |Step(cfg, s, e).accepted| == |s.accepted| + 1
    ensures Remembered(cfg, Step(cfg, s, e), Step(cfg, s, e).accepted[|s.accepted|])
  {
  }

  lemma ArrivalKeeps(cfg: Config, s: State, e: Event)
    requires 2 * cfg.maxSkew < cfg.ttl && Remembers(cfg, s) && e.Arrives? && s.clock <= e.now
    ensures Remembers(cfg, Step(cfg, s, e))
  {
    var s' := Step(cfg, s, e);
    ArrivalLogs(cfg, s, e);
    forall i | 0 <= i < |s.accepted| ensures Remembered(cfg, s', s.accepted[i]) {
      EarlierKept(cfg, s, e, s.accepted[i]);
    }
    if s'.accepted != s.accepted {
      NewlyRemembered(cfg, s, e);
      var latest := s'.accepted[|s.accepted|];
      forall i | 0 <= i < |s.accepted|
        ensures Identity(s.accepted[i]) != Identity(latest) && s.accepted[i].header != latest.header
      {
        assert Remembered(cfg, s, s.accepted[i]);
        if Identity(s.accepted[i]) == Identity(latest) {
          NotAgain(cfg, s, e.request, e.now, s.accepted[i]);
        }
      }
    }
  }

  lemma {:induction false} ClockOf(cfg: Config, s: State, es: seq<Event>)
    ensures Run(cfg, s, es).clock == if es == [] then s.clock else es[|es| - 1].now
    decreases |es|
  {
  }

  /** With a clock that never goes back and twice the skew below the time to live, no key id, timestamp and
      nonce are accepted together twice in any run, however the header is spelt and whichever expired rows
      are deleted when. */
  lemma {:induction false} AtMostOnce(cfg: Config, start: int, es: seq<Event>)
    requires 2 * cfg.maxSkew < cfg.ttl && Monotone(start, es)
    ensures Remembers(cfg, Run(cfg, State(map[], start, []), es))
    decreases |es|
  {
    if es != [] {
      var before := es[..|es| - 1];
      forall i | 0 <= i < |before| ensures ClockBefore(start, before, i) <= before[i].now {
        assert ClockBefore(start, before, i) == ClockBefore(start, es, i) <= es[i].now;
      }
      AtMostOnce(cfg, start, before);
      var s := Run(cfg, State(map[], start, []), before);
      var e := es[|es| - 1];
      ClockOf(cfg, State(map[], start, []), before);
      assert s.clock == ClockBefore(start, es, |es| - 1) <= e.now;
      if e.Purged? {
        PurgeKeeps(cfg, s, e);
      } else {
        ArrivalKeeps(cfg, s, e);
      }
    }
  }

  /** The run that replays: the same header at both ends of its skew. */
  function Replay(r: Request, maxSkew: int): seq<Event> { [Arrives(r, 0), Arrives(r, 2 * maxSkew)] }

  lemma ReplayAccepted(cfg: Config, r: Request, nonce: string)
    requires DigestsOk(cfg.crypto) && 0 <= cfg.maxSkew <= MAX_SAFE_INTEGER && NonceOk(nonce)
    requires 2 * cfg.maxSkew >= cfg.ttl
    requires r.header == Some(Format(Sign(cfg.crypto, CurrentKey(cfg.keys, r.direction), r, cfg.maxSkew, nonce)))
    ensures |Run(cfg, State(map[], 0, []), Replay(r, cfg.maxSkew)).accepted| == 2
    ensures !OnceEach(Run(cfg, State(map[], 0, []), Replay(r, cfg.maxSkew)).accepted)
  {
    var s0 := State(map[], 0, []);
    var es := Replay(r, cfg.maxSkew);
    var key := CurrentKey(cfg.keys, r.direction);
    var signed := Sign(cfg.crypto, key, r, cfg.maxSkew, nonce);
    SignedFieldsOk(cfg.crypto, key, r, cfg.maxSkew, nonce);
    FormatParse(signed);
    SignedIsAccepted(cfg, s0.nonces, key, r, cfg.maxSkew, nonce, 0);
    var s1 := Step(cfg, s0, es[0]);
    assert s1.accepted == [Acceptance(r.header.value, signed, 0)];
    assert forall k :: k in s1.nonces ==> s1.nonces[k] <= 2 * cfg.maxSkew;
    SignedIsAccepted(cfg, s1.nonces, key, r, cfg.maxSkew, nonce, 2 * cfg.maxSkew);
    var s2 := Step(cfg, s1, es[1]);
    assert s2.accepted[0].header == s2.accepted[1].header;
    assert es[..1] == [es[0]] && es[..1][..0] == [];
    assert Run(cfg, s0, es[..1]) == Step(cfg, Run(cfg, s0, []), es[0]);
    assert Run(cfg, s0, es) == s2;
  }

  /** Exactly when no run ever accepts one identity, or one header, twice: twice the skew is below the time to live. */
  lemma AtMostOnceExactly(cfg: Config, r: Request, nonce: string)
    requires DigestsOk(cfg.crypto) && 0 <= cfg.maxSkew <= MAX_SAFE_INTEGER && NonceOk(nonce)
    requires r.header == Some(Format(Sign(cfg.crypto, CurrentKey(cfg.keys, r.direction), r, cfg.maxSkew, nonce)))
    ensures (forall start, es :: Monotone(start, es) ==> OnceEach(Run(cfg, State(map[], start, []), es).accepted))
            <==> 2 * cfg.maxSkew < cfg.ttl
  {
    if 2 * cfg.maxSkew < cfg.ttl {
      forall start, es | Monotone(start, es) ensures OnceEach(Run(cfg, State(map[], start, []), es).accepted) {
        AtMostOnce(cfg, start, es);
      }
    } else {
      ReplayAccepted(cfg, r, nonce);
      assert Monotone(0, Replay(r, cfg.maxSkew));
    }
  }

  // ---------------------------------------------------------------- what acceptance means, exactly

  /** The text both sides sign. */
  function SignedText(x: Crypto, r: Request, p: SignedRequest): string {
    JoinLines(["1", KeyId(r.direction), p.timestamp, p.nonce, x.upper(r.verb), r.path, x.sha256Hex(r.body)])
  }

  /** The keys of a direction: the current one, and the previous one when it is configured. */
  predicate KeyOf(k: Keys, d: Direction, key: string) {
    match d
    case AgentToFactory => key == k.agentToFactory || (k.previousAgent == Some(key) && key != "")
    case FactoryToAgent => key == k.factoryToAgent || (k.previousFactory == Some(key) && key != "")
  }

  /** Everything an accepted request carries: the direction's key id, a timestamp within the skew, a usable
      nonce, and a digest of exactly this request under one of the direction's keys. */
  ghost predicate Authentic(cfg: Config, r: Request, p: SignedRequest, now: int) {
    && p.keyId == KeyId(r.direction)
    && 1 <= |p.timestamp| <= 16 && Decimal.AllDigits(p.timestamp)
    && Decimal.FromDecimal(p.timestamp) <= 9007199254740991
    && now - cfg.maxSkew <= Decimal.FromDecimal(p.timestamp) <= now + cfg.maxSkew
    && Trim(p.nonce) != "" && |p.nonce| <= 128
    && SignatureShape(p.signature)
    && exists key :: KeyOf(cfg.keys, r.direction, key) && cfg.crypto.hmac(key, SignedText(cfg.crypto, r, p)) == Unhex(p.signature)
  }

  lemma KeysExactly(k: Keys, d: Direction, key: string)
    ensures key in VerificationKeys(k, d) <==> KeyOf(k, d, key)
  {
  }

  lemma CheckedExactly(cfg: Config, r: Request, p: SignedRequest, now: int)
    ensures CheckedParsed(cfg, r, p, now) == Ok(p) <==> Authentic(cfg, r, p, now)
  {
    var keys := VerificationKeys(cfg.keys, r.direction);
    forall key ensures key in keys <==> KeyOf(cfg.keys, r.direction, key) {
      KeysExactly(cfg.keys, r.direction, key);
    }
    if SignatureShape(p.signature) {
      if key :| KeyOf(cfg.keys, r.direction, key) && cfg.crypto.hmac(key, SignedText(cfg.crypto, r, p)) == Unhex(p.signature) {
        var i :| 0 <= i < |keys| && keys[i] == key;
      }
      if SignatureMatches(cfg, r, p) {
        var i :| 0 <= i < |keys| && cfg.crypto.hmac(keys[i], SignedText(cfg.crypto, r, p)) == Unhex(p.signature);
        assert keys[i] in keys;
      }
    }
  }

  /** A nonce is taken once while it is remembered; what has expired is forgotten, the rest is kept. */
  lemma NonceExactly(n: Nonces, ttl: int, keyId: string, nonce: string, now: int)
    ensures var (n', first) := ConsumeNonce(n, ttl, keyId, nonce, now);
            var key := (keyId, Trim(nonce));
            && (first <==> forall at :: Lookup(n, key) == Some(at) ==> at <= now)
            && (first ==> Lookup(n', key) == Some(now + ttl))
            && (forall k :: k != key || !first ==> Lookup(n', k) == if k in n && n[k] > now then Some(n[k]) else None)
  {
  }

  /** Consuming the nonce after the checks. */
  lemma VerifyExactly(cfg: Config, n: Nonces, r: Request, now: int, c: Result<SignedRequest, AuthError>)
    requires c == Checked(cfg, r, now)
    ensures Verify(cfg, n, r, now) ==
              match c
              case Err(e) => (n, Some(e))
              case Ok(p) =>
                var (n', first) := ConsumeNonce(n, cfg.ttl, p.keyId, p.nonce, now);
                (n', if first then None else Some(NonceReplayed))
  {
  }

  /** A request whose header parses is accepted if and only if it is authentic and its nonce is not
      remembered; it is then remembered for the time to live. */
  lemma AcceptsExactly(cfg: Config, n: Nonces, r: Request, p: SignedRequest, now: int)
    requires r.header.Some? && r.header.value != "" && Parse(r.header.value) == Some(p)
    ensures Accepts(cfg, n, r, now) <==>
              Authentic(cfg, r, p, now) && forall at :: Lookup(n, (p.keyId, Trim(p.nonce))) == Some(at) ==> at <= now
    ensures Accepts(cfg, n, r, now) ==> Verify(cfg, n, r, now).0 == ConsumeNonce(n, cfg.ttl, p.keyId, p.nonce, now).0
  {
    ParsedChecks(cfg, r, r.header.value, p, now);
    ParsedAccepted(cfg, n, r, p, now, Checked(cfg, r, now));
    NonceExactly(n, cfg.ttl, p.keyId, p.nonce, now);
  }

  lemma ParsedAccepted(cfg: Config, n: Nonces, r: Request, p: SignedRequest, now: int, c: Result<SignedRequest, AuthError>)
    requires c == Checked(cfg, r, now) == CheckedParsed(cfg, r, p, now)
    ensures var (n', first) := ConsumeNonce(n, cfg.ttl, p.keyId, p.nonce, now);
            && (Accepts(cfg, n, r, now) <==> Authentic(cfg, r, p, now) && first)
            && (Accepts(cfg, n, r, now) ==> Verify(cfg, n, r, now).0 == n')
  {
    VerifyExactly(cfg, n, r, now, c);
    CheckedExactly(cfg, r, p, now);
    OnlyItself(cfg, r, p, now);
  }

  lemma OnlyItself(cfg: Config, r: Request, p: SignedRequest, now: int)
    ensures CheckedParsed(cfg, r, p, now).Ok? ==> CheckedParsed(cfg, r, p, now).value == p
  {
  }

  /** A header that is missing or does not parse is refused, and no nonce is touched. */
  lemma HeaderRefusals(cfg: Config, n: Nonces, r: Request, now: int)
    ensures r.header.None? || r.header.value == "" ==> Verify(cfg, n, r, now) == (n, Some(HeaderRequired))
    ensures r.header.Some? && r.header.value != "" && Parse(r.header.value).None? ==> Verify(cfg, n, r, now) == (n, Some(HeaderMalformed))
  {
    VerifyExactly(cfg, n, r, now, Checked(cfg, r, now));
  }

  /** The first failing check names the error. */
  lemma RefusalsExactly(cfg: Config, r: Request, p: SignedRequest, now: int)
    ensures var c := CheckedParsed(cfg, r, p, now);
            && (c == Err(UnknownKey) <==> p.keyId != KeyId(r.direction))
            && (c == Err(InvalidTimestamp) <==>
                  p.keyId == KeyId(r.direction)
                  && !(1 <= |p.timestamp| <= 16 && Decimal.AllDigits(p.timestamp) && Decimal.FromDecimal(p.timestamp) <= 9007199254740991))
            && (c == Err(TimestampSkew) ==>
                  Decimal.AllDigits(p.timestamp)
                  && !(now - cfg.maxSkew <= Decimal.FromDecimal(p.timestamp) <= now + cfg.maxSkew))
            && (c == Err(NonceRequired) ==> Trim(p.nonce) == "") && (c == Err(NonceTooLong) ==> |p.nonce| > 128)
            && (c == Err(SignatureMismatch) ==>
                  !SignatureShape(p.signature)
                  || forall key :: KeyOf(cfg.keys, r.direction, key) ==>
                       cfg.crypto.hmac(key, SignedText(cfg.crypto, r, p)) != Unhex(p.signature))
            && (c.Err? ==> c.error in {UnknownKey, InvalidTimestamp, TimestampSkew, NonceRequired, NonceTooLong, SignatureMismatch})
  {
    CheckedExactly(cfg, r, p, now);
  }

  lemma AcceptedHasHeader(cfg: Config, n: Nonces, r: Request, now: int)
    requires Accepts(cfg, n, r, now)
    ensures r.header.Some? && r.header.value != ""
  {
    HeaderRefusals(cfg, n, r, now);
  }

  /** One event: a deletion drops only rows that have expired, a request is verified and, if accepted, logged. */
  lemma StepExactly(cfg: Config, s: State, e: Event, k: (string, string))
    ensures Step(cfg, s, e).clock == e.now
    ensures e.Purged? ==>
              && Step(cfg, s, e).accepted == s.accepted
              && Lookup(Step(cfg, s, e).nonces, k) ==
                   if k in s.nonces && !(k in e.keys && s.nonces[k] <= e.now) then Some(s.nonces[k]) else None
    ensures e.Arrives? ==>
              && Step(cfg, s, e).nonces == Verify(cfg, s.nonces, e.request, e.now).0
              && (!Accepts(cfg, s.nonces, e.request, e.now) ==> Step(cfg, s, e).accepted == s.accepted)
  {
  }

  lemma RunSteps(cfg: Config, s: State, es: seq<Event>, e: Event)
    ensures Run(cfg, s, []) == s && Run(cfg, s, es + [e]) == Step(cfg, Run(cfg, s, es), e)
  {
    assert (es + [e])[..|es + [e]| - 1] == es;
  }

  /** One of the requests of the run was accepted at that time, and was authentic. */
  ghost predicate LoggedAuthentic(cfg: Config, es: seq<Event>, a: Acceptance) {
    exists i :: 0 <= i < |es| && es[i].Arrives? && es[i].now == a.at && es[i].request.header == Some(a.header)
                && Authentic(cfg, es[i].request, a.parsed, a.at)
  }

  /** Over every run, each acceptance in the log was of an authentic request of the run. */
  lemma {:induction false} LogAuthentic(cfg: Config, start: int, es: seq<Event>, a: Acceptance)
    requires a in Run(cfg, State(map[], start, []), es).accepted
    ensures LoggedAuthentic(cfg, es, a)
    decreases |es|
  {
    var before := es[..|es| - 1];
    var e := es[|es| - 1];
    var s := Run(cfg, State(map[], start, []), before);
    if a in s.accepted {
      LogAuthentic(cfg, start, before, a);
      var i :| 0 <= i < |before| && before[i].Arrives? && before[i].now == a.at && before[i].request.header == Some(a.header)
               && Authentic(cfg, before[i].request, a.parsed, a.at);
      assert es[i] == before[i];
    } else {
      NewlyLogged(cfg, s, e, a);
    }
  }

  lemma NewlyLogged(cfg: Config, s: State, e: Event, a: Acceptance)
    requires a in Step(cfg, s, e).accepted && a !in s.accepted
    ensures e.Arrives? && e.now == a.at && e.request.header == Some(a.header) && Authentic(cfg, e.request, a.parsed, a.at)
  {
    ArrivalLogs(cfg, s, e);
    var s' := Step(cfg, s, e);
    assert a == s'.accepted[|s.accepted|] by {
      assert a !in s'.accepted[..|s.accepted|];
    }
    AcceptedHasHeader(cfg, s.nonces, e.request, e.now);
    AcceptsExactly(cfg, s.nonces, e.request, a.parsed, e.now);
  }

  /** A signature speaks for every field on its own: equal payloads mean equal timestamp, nonce, verb,
      path and body digest, whenever none of them holds a newline. */
  lemma PayloadBinds(x: Crypto, d: Direction, t1: string, n1: string, v1: string, p1: string, b1: Body,
                     t2: string, n2: string, v2: string, p2: string, b2: Body)
    requires Payload(x, d, t1, n1, v1, p1, b1) == Payload(x, d, t2, n2, v2, p2, b2)
    requires OneLine(t1) && OneLine(n1) && OneLine(x.upper(v1)) && OneLine(p1) && OneLine(x.sha256Hex(b1))
    requires OneLine(t2) && OneLine(n2) && OneLine(x.upper(v2)) && OneLine(p2) && OneLine(x.sha256Hex(b2))
    ensures t1 == t2 && n1 == n2 && x.upper(v1) == x.upper(v2) && p1 == p2 && x.sha256Hex(b1) == x.sha256Hex(b2)
  {
    var a := ["1", KeyId(d), t1, n1, x.upper(v1), p1, x.sha256Hex(b1)];
    var b := ["1", KeyId(d), t2, n2, x.upper(v2), p2, x.sha256Hex(b2)];
    JoinInjective(a, b);
    assert a[2] == b[2] && a[3] == b[3] && a[4] == b[4] && a[5] == b[5] && a[6] == b[6];
  }

  // ---------------------------------------------------------------- the service's own code

  class RequestVerifier {
    const config: Config
    var nonces: Nonces

    constructor (config: Config)
      ensures this.config == config && nonces == map[]
    {
      this.config := config;
      nonces := map[];
    }

    method Consume(keyId: string, nonce: string, now: int) returns (first: bool)
      modifies this
      ensures (nonces, first) == ConsumeNonce(old(nonces), config.ttl, keyId, nonce, now)
    {
      nonces := map k | k in nonces && nonces[k] > now :: nonces[k];
      var key := (keyId, Trim(nonce));
      first := key !in nonces;
      if first {
        nonces := nonces[key := now + config.ttl];
      }
    }

    /** Every key is tried, also after one has matched. */
    method Matches(r: Request, p: SignedRequest) returns (matched: bool)
      requires SignatureShape(p.signature)
      ensures matched <==> SignatureMatches(config, r, p)
    {
      var payload := Payload(config.crypto, r.direction, p.timestamp, p.nonce, r.verb, r.path, r.body);
      var supplied := Unhex(p.signature);
      var keys := VerificationKeys(config.keys, r.direction);
      matched := false;
      for i := 0 to |keys|
        invariant matched <==> exists j :: 0 <= j < i && config.crypto.hmac(keys[j], payload) == supplied
      {
        var candidateMatches := config.crypto.hmac(keys[i], payload) == supplied;
        matched := matched || candidateMatches;
      }
    }

    method VerifyRequest(r: Request, now: int) returns (failed: Option<AuthError>)
      modifies this
      ensures (nonces, failed) == Verify(config, old(nonces), r, now)
    {
      if r.header.None? || r.header.value == "" {
        return Some(HeaderRequired);
      }
      var parsed := Parse(r.header.value);
      if parsed.None? {
        return Some(HeaderMalformed);
      }
      var p := parsed.value;
      if p.keyId != KeyId(r.direction) {
        return Some(UnknownKey);
      }
      if !TimestampShape(p.timestamp) {
        return Some(InvalidTimestamp);
      }
      var timestamp := Decimal.FromDecimal(p.timestamp);
      if timestamp > MAX_SAFE_INTEGER {
        return Some(InvalidTimestamp);
      }
      if now - timestamp > config.maxSkew || timestamp - now > config.maxSkew {
        return Some(TimestampSkew);
      }
      if Trim(p.nonce) == "" {
        return Some(NonceRequired);
      }
      if |p.nonce| > MAX_NONCE_LENGTH {
        return Some(NonceTooLong);
      }
      if !SignatureShape(p.signature) {
        return Some(SignatureMismatch);
      }
      var matched := Matches(r, p);
      if !matched {
        return Some(SignatureMismatch);
      }
      var first := Consume(p.keyId, p.nonce, now);
      return if first then None else Some(NonceReplayed);
    }
  }
}
