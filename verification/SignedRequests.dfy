/** The OW1-HMAC-SHA256 middleware: parsing, the canonical string, and at-most-once acceptance over
    every interleaving. Header and URL strings are byte strings, one char for a byte. */
module SignedRequests {
  import opened Base
  import opened Nonces
  import opened Runs

  const SCHEME := "OW1-HMAC-SHA256 "

  datatype Credentials = BadScheme | BadFormat | BadSignature | Credentials(keyID: string, signature: string)

  /** strings.IndexByte, with the length for "not found". */
  function IndexOf(s: string, c: char): (i: nat)
    ensures i <= |s| && c !in s[..i] && (i < |s| ==> s[i] == c)
  {
    if s == "" || s[0] == c then 0 else assert s[..1] == [s[0]]; var i := 1 + IndexOf(s[1..], c); assert s[..i] == [s[0]] + s[1..][..i - 1]; i
  }

  function ParseAuthorization(auth: string): Credentials {
    if !(SCHEME <= auth) then BadScheme
    else
      var v := auth[|SCHEME|..];
      var colon := IndexOf(v, ':');
      if colon == 0 || colon == |v| then BadFormat
      else if |v[colon + 1..]| < 20 then BadSignature
      else Credentials(v[..colon], v[colon + 1..])
  }

  lemma {:induction false} IndexOfFirst(a: string, c: char, b: string)
    requires c !in a
    ensures IndexOf(a + [c] + b, c) == |a|
  {
    if a != "" {
      assert (a + [c] + b)[1..] == a[1..] + [c] + b;
      IndexOfFirst(a[1..], c, b);
    }
  }

  lemma ParseBuilt(keyID: string, signature: string)
    requires keyID != "" && ':' !in keyID && |signature| >= 20
    ensures ParseAuthorization(SCHEME + keyID + ":" + signature) == Credentials(keyID, signature)
  {
    var v := keyID + [':'] + signature;
    BehindScheme(keyID, signature);
    IndexOfFirst(keyID, ':', signature);
    assert v[..|keyID|] == keyID && v[|keyID| + 1..] == signature;
  }

  lemma BehindScheme(keyID: string, signature: string)
    ensures var auth := SCHEME + keyID + ":" + signature;
      SCHEME <= auth && auth[|SCHEME|..] == keyID + [':'] + signature
  {
    assert SCHEME + keyID + ":" + signature == SCHEME + (keyID + [':'] + signature);
  }

  lemma ParsedIsBuilt(auth: string)
    requires ParseAuthorization(auth).Credentials?
    ensures var c := ParseAuthorization(auth);
      auth == SCHEME + c.keyID + ":" + c.signature && c.keyID != "" && ':' !in c.keyID && |c.signature| >= 20
  {
    var v := auth[|SCHEME|..];
    var i := IndexOf(v, ':');
    assert v == v[..i] + ":" + v[i + 1..];
    assert auth == SCHEME + v;
    assert SCHEME + (v[..i] + ":" + v[i + 1..]) == SCHEME + v[..i] + ":" + v[i + 1..];
  }

  /** The header splits into (keyID, signature) exactly when it was put together from a non-empty
      colon-free keyID and a signature of at least 20 characters, and the split finds those. */
  lemma AuthorizationSplit(auth: string, keyID: string, signature: string)
    ensures ParseAuthorization(auth) == Credentials(keyID, signature) <==>
      auth == SCHEME + keyID + ":" + signature && keyID != "" && ':' !in keyID && |signature| >= 20
  {
    if ParseAuthorization(auth).Credentials? {
      ParsedIsBuilt(auth);
    }
    if keyID != "" && ':' !in keyID && |signature| >= 20 {
      ParseBuilt(keyID, signature);
    }
  }

  /** What is signed. */
  datatype Signed = Signed(verb: string, path: string, query: string, bodyHash: string, date: string, device: string, nonce: string)

  function Fields(r: Signed): seq<string> {
    [r.verb, r.path, r.query, r.bodyHash, "X-OW-Date:" + r.date, "X-OW-Device:" + r.device, "X-OW-Nonce:" + r.nonce]
  }

  function Canonical(r: Signed): string {
    Join(Fields(r), '\n')
  }

  predicate OneLine(r: Signed) {
    && '\n' !in r.verb && '\n' !in r.path && '\n' !in r.query && '\n' !in r.bodyHash
    && '\n' !in r.date && '\n' !in r.device && '\n' !in r.nonce
  }

  lemma SamePrefix(p: string, a: string, b: string)
    requires p + a == p + b
    ensures a == b
  {
    assert a == (p + a)[|p|..] && b == (p + b)[|p|..];
  }

  /** Equal canonical strings mean equal requests, for fields without newlines. */
  lemma CanonicalInjective(r: Signed, s: Signed)
    requires OneLine(r) && OneLine(s)
    ensures Canonical(r) == Canonical(s) <==> r == s
  {
    if Canonical(r) == Canonical(s) {
      forall i | 0 <= i < 7 ensures '\n' !in Fields(r)[i] && '\n' !in Fields(s)[i] {}
      SplitJoin(Fields(r), '\n');
      SplitJoin(Fields(s), '\n');
      assert Fields(r) == Fields(s);
      assert forall i | 0 <= i < 7 :: Fields(r)[i] == Fields(s)[i];
      SamePrefix("X-OW-Date:", r.date, s.date);
      SamePrefix("X-OW-Device:", r.device, s.device);
      SamePrefix("X-OW-Nonce:", r.nonce, s.nonce);
    }
  }

  /** An incoming request; body is None when reading it fails. */
  datatype Request = Request(verb: string, path: string, query: string, device: string, date: string, nonce: string,
                             bodyHash: string, auth: string, body: Option<Bytes>)

  /** The middleware's settings and what is left uninterpreted: RFC 3339 dates, SHA-256 and HMAC-SHA256 in hexadecimal. */
  datatype Config = Config(maxSkew: int, ttl: int, parseDate: string -> Option<int>, sha: Bytes -> Digest, mac: (Bytes, string) -> Digest)

  datatype Failure = MissingHeaders | Malformed(why: Credentials) | BadDate | ClockSkew | UnreadableBody | BodyHashMismatch | UnknownKey | InvalidSignature | ReplayedNonce

  datatype Admission = Refused(failure: Failure) | Admitted(keyID: string, signature: string, ts: int)

  /** The configured window, or 5 minutes when none is given. */
  function Window(maxSkew: int): (w: int)
    ensures w > 0
  {
    if maxSkew <= 0 then 5 * MINUTE else maxSkew
  }

  predicate InWindow(ts: int, now: int, skew: int) {
    !(ts > now + skew || ts < now - skew)
  }

  /** Headers and clock: everything up to reading the body. */
  function Admit(cfg: Config, now: int, r: Request): Admission {
    if r.device == "" || r.date == "" || r.nonce == "" || r.auth == "" then Refused(MissingHeaders)
    else
      var c := ParseAuthorization(r.auth);
      if !c.Credentials? then Refused(Malformed(c))
      else match cfg.parseDate(r.date)
        case None => Refused(BadDate)
        case Some(ts) =>
          if !InWindow(ts, now, Window(cfg.maxSkew)) then Refused(ClockSkew)
          else Admitted(c.keyID, c.signature, ts)
  }

  function SignedPart(cfg: Config, r: Request): Signed
    requires r.body.Some?
  {
    Signed(r.verb, r.path, r.query, if r.bodyHash == "" then cfg.sha(r.body.value) else r.bodyHash, r.date, r.device, r.nonce)
  }

  datatype Check = Failed(failure: Failure) | Passed(secret: Bytes)

  /** Body hash, key lookup and signature. */
  function Verify(cfg: Config, keys: map<string, KeyInfo>, r: Request, keyID: string, signature: string): Check {
    if r.body.None? then Failed(UnreadableBody)
    else if r.bodyHash != "" && Lower(r.bodyHash) != Lower(cfg.sha(r.body.value)) then Failed(BodyHashMismatch)
    else if r.device !in keys || keys[r.device].keyID != keyID || keys[r.device].secret == [] then Failed(UnknownKey)
    else if Lower(signature) != Lower(cfg.mac(keys[r.device].secret, Canonical(SignedPart(cfg, r)))) then Failed(InvalidSignature)
    else Passed(keys[r.device].secret)
  }

  // ---- what the checks amount to, written out ----

  /** The header carries this key ID and this signature. */
  predicate Carries(auth: string, keyID: string, signature: string) {
    auth == "OW1-HMAC-SHA256 " + keyID + ":" + signature && keyID != "" && ':' !in keyID && |signature| >= 20
  }

  /** At most maxSkew away from now on either side; 5 minutes when no window is configured. */
  predicate Timely(maxSkew: int, ts: int, now: int) {
    var w := if maxSkew <= 0 then 300_000_000_000 else maxSkew;
    now - w <= ts <= now + w
  }

  /** The body was read, and its hash is the one announced, if any. */
  predicate BodyIntact(cfg: Config, r: Request) {
    r.body.Some? && (r.bodyHash == "" || SameFold(r.bodyHash, cfg.sha(r.body.value)))
  }

  /** The signature is that of the seven lines under the secret; its case does not matter. */
  predicate SignedWith(cfg: Config, r: Request, secret: Bytes, signature: string)
    requires r.body.Some?
  {
    var hash := if r.bodyHash == "" then cfg.sha(r.body.value) else r.bodyHash;
    var lines := [r.verb, r.path, r.query, hash, "X-OW-Date:" + r.date, "X-OW-Device:" + r.device, "X-OW-Nonce:" + r.nonce];
    SameFold(signature, cfg.mac(secret, Join(lines, '\n')))
  }

  predicate HeadersPresent(r: Request) {
    r.device != "" && r.date != "" && r.nonce != "" && r.auth != ""
  }

  /** Which refusal a request meets before its body is read, and when it meets none. */
  lemma AdmitMeans(cfg: Config, now: int, r: Request)
    ensures Admit(cfg, now, r) == Refused(MissingHeaders) <==> !HeadersPresent(r)
    ensures Admit(cfg, now, r) == Refused(BadDate) <==>
      HeadersPresent(r) && (exists k, g :: Carries(r.auth, k, g)) && cfg.parseDate(r.date).None?
    ensures Admit(cfg, now, r) == Refused(ClockSkew) <==>
      && HeadersPresent(r) && (exists k, g :: Carries(r.auth, k, g))
      && cfg.parseDate(r.date).Some? && !Timely(cfg.maxSkew, cfg.parseDate(r.date).value, now)
    ensures (exists why :: Admit(cfg, now, r) == Refused(Malformed(why))) <==>
      HeadersPresent(r) && !exists k, g :: Carries(r.auth, k, g)
    ensures forall keyID, signature, ts :: Admit(cfg, now, r) == Admitted(keyID, signature, ts) <==>
      && HeadersPresent(r) && Carries(r.auth, keyID, signature)
      && cfg.parseDate(r.date) == Some(ts) && Timely(cfg.maxSkew, ts, now)
  {
    var c := ParseAuthorization(r.auth);
    forall k, g ensures c == Credentials(k, g) <==> Carries(r.auth, k, g) {
      AuthorizationSplit(r.auth, k, g);
    }
    if c.Credentials? {
      assert Carries(r.auth, c.keyID, c.signature);
    }
    if HeadersPresent(r) && !c.Credentials? {
      assert Admit(cfg, now, r) == Refused(Malformed(c));
    }
  }

  /** Which way the header is malformed: the scheme, then the colon, then the length of the signature. */
  lemma MalformedMeans(auth: string)
    ensures ParseAuthorization(auth) == BadScheme <==> !("OW1-HMAC-SHA256 " <= auth)
    ensures ParseAuthorization(auth) == BadFormat <==>
      "OW1-HMAC-SHA256 " <= auth && (':' !in auth[16..] || auth[16] == ':')
  {
    assert |SCHEME| == 16;
  }

  /** What the later checks amount to, in the order body, hash, key, signature. */
  lemma VerifyMeans(cfg: Config, keys: map<string, KeyInfo>, r: Request, keyID: string, signature: string)
    ensures var v := Verify(cfg, keys, r, keyID, signature);
      var known := r.device in keys && keys[r.device].keyID == keyID && keys[r.device].secret != [];
      && (v == Failed(UnreadableBody) <==> r.body.None?)
      && (v == Failed(BodyHashMismatch) <==> r.body.Some? && !BodyIntact(cfg, r))
      && (v == Failed(UnknownKey) <==> BodyIntact(cfg, r) && !known)
      && (v == Failed(InvalidSignature) <==> BodyIntact(cfg, r) && known && !SignedWith(cfg, r, keys[r.device].secret, signature))
      && forall secret :: v == Passed(secret) <==>
           BodyIntact(cfg, r) && known && keys[r.device].secret == secret && SignedWith(cfg, r, secret, signature)
  {
    if r.body.Some? {
      LowerMeans(r.bodyHash, cfg.sha(r.body.value));
      if r.device in keys {
        LowerMeans(signature, cfg.mac(keys[r.device].secret, Canonical(SignedPart(cfg, r))));
        CanonicalLines(cfg, r);
      }
    }
  }

  lemma CanonicalLines(cfg: Config, r: Request)
    requires r.body.Some?
    ensures Canonical(SignedPart(cfg, r)) == Join([r.verb, r.path, r.query, if r.bodyHash == "" then cfg.sha(r.body.value) else r.bodyHash,
      "X-OW-Date:" + r.date, "X-OW-Device:" + r.device, "X-OW-Nonce:" + r.nonce], '\n')
  {}

  /** All that a request needs to reach the nonce table. */
  ghost predicate Passes(cfg: Config, keys: map<string, KeyInfo>, now: int, r: Request) {
    && HeadersPresent(r) && cfg.parseDate(r.date).Some? && Timely(cfg.maxSkew, cfg.parseDate(r.date).value, now)
    && BodyIntact(cfg, r)
    && r.device in keys && keys[r.device].secret != []
    && exists signature ::
         && Carries(r.auth, keys[r.device].keyID, signature)
         && SignedWith(cfg, r, keys[r.device].secret, signature)
  }

  lemma PassesIff(cfg: Config, keys: map<string, KeyInfo>, now: int, r: Request)
    ensures Passes(cfg, keys, now, r) <==>
      Admit(cfg, now, r).Admitted? && Verify(cfg, keys, r, Admit(cfg, now, r).keyID, Admit(cfg, now, r).signature).Passed?
  {
    AdmitMeans(cfg, now, r);
    var a := Admit(cfg, now, r);
    if a.Admitted? {
      VerifyMeans(cfg, keys, r, a.keyID, a.signature);
      if g :| r.device in keys && Carries(r.auth, keys[r.device].keyID, g) {
        AuthorizationSplit(r.auth, keys[r.device].keyID, g);
        AuthorizationSplit(r.auth, a.keyID, a.signature);
      }
    }
  }

  /** HMACAuth for one request that nothing interrupts, with the clock read twice. */
  method HMACAuth(cfg: Config, p: MemKeyProvider, r: Request, now: int, later: int) returns (failure: Option<Failure>)
    requires p.ttl == cfg.ttl
    modifies p`nonces
    ensures failure == None || failure == Some(ReplayedNonce) <==> Passes(cfg, p.keys, now, r)
    ensures match Admit(cfg, now, r)
      case Refused(f) => failure == Some(f) && p.nonces == old(p.nonces)
      case Admitted(keyID, signature, ts) =>
        match Verify(cfg, p.keys, r, keyID, signature)
        case Failed(f) => failure == Some(f) && p.nonces == old(p.nonces)
        case Passed(_) =>
          && failure == (if Seen(old(p.nonces), cfg.ttl, later, keyID, r.nonce) then Some(ReplayedNonce) else None)
          && p.nonces == Recorded(old(p.nonces), cfg.ttl, later, keyID, r.nonce, ts)
  {
    PassesIff(cfg, p.keys, now, r);
    AdmitMeans(cfg, now, r);
    var a := Admit(cfg, now, r);
    if a.Refused? {
      return Some(a.failure);
    }
    if r.body.None? {
      return Some(UnreadableBody);
    }
    if r.bodyHash != "" && Lower(r.bodyHash) != Lower(cfg.sha(r.body.value)) {
      return Some(BodyHashMismatch);
    }
    var ki := p.Lookup(r.device, a.keyID);
    if ki.None? || ki.value.secret == [] {
      return Some(UnknownKey);
    }
    if Lower(a.signature) != Lower(cfg.mac(ki.value.secret, Canonical(SignedPart(cfg, r)))) {
      return Some(InvalidSignature);
    }
    var seen := p.SeenNonce(ki.value.keyID, r.nonce, a.ts, later);
    return if seen then Some(ReplayedNonce) else None;
  }

  /** A request between its steps: the clock was read at checkedAt. */
  datatype Phase =
    | Checked(r: Request, keyID: string, signature: string, ts: int, checkedAt: int)
    | Verified(r: Request, keyID: string, signature: string, secret: Bytes, ts: int, checkedAt: int)

  datatype Acceptance = Acceptance(r: Request, keyID: string, signature: string, secret: Bytes, ts: int, checkedAt: int)

  datatype State = State(clock: int, keys: map<string, KeyInfo>, nonces: Table, inflight: map<int, Phase>, accepted: seq<Acceptance>)

  /** One step of one handler, of the clock, or of key provisioning. */
  datatype Event =
    | Tick(elapsed: nat)
    | PutKey(device: string, keyID: string, secret: Bytes)
    | Arrive(id: int, r: Request)
    | CheckSignature(id: int)
    | RedeemNonce(id: int)

  function Start(clock: int): State {
    State(clock, map[], map[], map[], [])
  }

  /** Events that make no sense in a state leave it alone. */
  function Next(cfg: Config, s: State, e: Event): State {
    match e
    case Tick(elapsed) => s.(clock := s.clock + elapsed)
    case PutKey(device, keyID, secret) => s.(keys := s.keys[device := KeyInfo(keyID, secret)])
    case Arrive(id, r) =>
      if id in s.inflight then s
      else (match Admit(cfg, s.clock, r)
        case Refused(_) => s
        case Admitted(keyID, signature, ts) => s.(inflight := s.inflight[id := Checked(r, keyID, signature, ts, s.clock)]))
    case CheckSignature(id) =>
      if id in s.inflight && s.inflight[id].Checked? then
        var c := s.inflight[id];
        (match Verify(cfg, s.keys, c.r, c.keyID, c.signature)
         case Failed(_) => s.(inflight := s.inflight - {id})
         case Passed(secret) => s.(inflight := s.inflight[id := Verified(c.r, c.keyID, c.signature, secret, c.ts, c.checkedAt)]))
      else s
    case RedeemNonce(id) =>
      if id in s.inflight && s.inflight[id].Verified? then
        var v := s.inflight[id];
        s.(inflight := s.inflight - {id},
           nonces := Recorded(s.nonces, cfg.ttl, s.clock, v.keyID, v.r.nonce, v.ts),
           accepted := s.accepted +
             if Seen(s.nonces, cfg.ttl, s.clock, v.keyID, v.r.nonce) then []
             else [Acceptance(v.r, v.keyID, v.signature, v.secret, v.ts, v.checkedAt)])
      else s
  }

  function Step(cfg: Config): (State, Event) -> State {
    (s: State, e: Event) => Next(cfg, s, e)
  }

  function Run(cfg: Config, s: State, events: seq<Event>): State {
    Reached(Step(cfg), s, events)
  }

  function InTime(delay: int): (State, Event) -> bool {
    (s: State, e: Event) => e.RedeemNonce? && e.id in s.inflight ==> s.clock <= s.inflight[e.id].checkedAt + delay
  }

  /** No request takes longer than delay from its clock check to its nonce step. */
  ghost predicate Prompt(cfg: Config, s: State, events: seq<Event>, delay: int) {
    Guarded(Step(cfg), s, events, InTime(delay))
  }

  predicate Same(a: Acceptance, b: Acceptance) {
    a.keyID == b.keyID && a.r.nonce == b.r.nonce && a.ts == b.ts
  }

  predicate NoReplay(accepted: seq<Acceptance>) {
    forall i, j | 0 <= i < j < |accepted| :: !Same(accepted[i], accepted[j])
  }

  /** What an accepted request was: timely when the clock was read, with its body as announced, and signed
      under the secret. */
  predicate Authentic(cfg: Config, a: Acceptance) {
    && HeadersPresent(a.r) && cfg.parseDate(a.r.date) == Some(a.ts) && Timely(cfg.maxSkew, a.ts, a.checkedAt)
    && Carries(a.r.auth, a.keyID, a.signature)
    && BodyIntact(cfg, a.r) && a.secret != [] && SignedWith(cfg, a.r, a.secret, a.signature)
  }

  function Acceptable(p: Phase): Acceptance
    requires p.Verified?
  {
    Acceptance(p.r, p.keyID, p.signature, p.secret, p.ts, p.checkedAt)
  }

  /** What holds of a request between its steps. */
  predicate PhaseOk(cfg: Config, clock: int, p: Phase) {
    && p.checkedAt <= clock
    && Admit(cfg, p.checkedAt, p.r) == Admitted(p.keyID, p.signature, p.ts)
    && (p.Verified? ==> Authentic(cfg, Acceptable(p)))
  }

  /** An accepted request is on record for as long as its date is within ttl of the clock. */
  predicate OnRecord(cfg: Config, s: State, a: Acceptance) {
    a.ts >= s.clock - cfg.ttl ==> a.r.nonce in Row(s.nonces, a.keyID) && Row(s.nonces, a.keyID)[a.r.nonce] == a.ts
  }

  ghost predicate Inv(cfg: Config, s: State) {
    && (forall id | id in s.inflight :: PhaseOk(cfg, s.clock, s.inflight[id]))
    && (forall a | a in s.accepted :: Authentic(cfg, a) && OnRecord(cfg, s, a))
  }

  lemma RedeemInv(cfg: Config, s: State, id: int)
    requires Inv(cfg, s) && id in s.inflight && s.inflight[id].Verified?
    ensures Inv(cfg, Next(cfg, s, RedeemNonce(id)))
  {
    var s', v := Next(cfg, s, RedeemNonce(id)), s.inflight[id];
    assert PhaseOk(cfg, s.clock, v);
    forall a | a in s'.accepted ensures Authentic(cfg, a) && OnRecord(cfg, s', a) {
      if a in s.accepted {
        assert OnRecord(cfg, s, a);
      }
    }
  }

  lemma VerifyInv(cfg: Config, s: State, id: int)
    requires Inv(cfg, s) && id in s.inflight && s.inflight[id].Checked?
    ensures Inv(cfg, Next(cfg, s, CheckSignature(id)))
  {
    var c := s.inflight[id];
    assert PhaseOk(cfg, s.clock, c);
    VerifyMeans(cfg, s.keys, c.r, c.keyID, c.signature);
    AdmitMeans(cfg, c.checkedAt, c.r);
  }

  lemma TickInv(cfg: Config, s: State, elapsed: nat)
    requires Inv(cfg, s)
    ensures Inv(cfg, s.(clock := s.clock + elapsed))
  {}

  lemma NextInv(cfg: Config, s: State, e: Event)
    requires Inv(cfg, s)
    ensures Inv(cfg, Next(cfg, s, e))
  {
    match e
    case Tick(elapsed) => TickInv(cfg, s, elapsed);
    case PutKey(_, _, _) =>
    case Arrive(_, _) =>
    case CheckSignature(id) => if id in s.inflight && s.inflight[id].Checked? { VerifyInv(cfg, s, id); }
    case RedeemNonce(id) => if id in s.inflight && s.inflight[id].Verified? { RedeemInv(cfg, s, id); }
  }

  /** Over any interleaving, whatever was accepted had a parsable date inside the window when the clock
      was read, credentials of the right form, and a signature over its own canonical string. */
  lemma {:induction false} AcceptedAreAuthentic(cfg: Config, s: State, events: seq<Event>)
    requires Inv(cfg, s)
    ensures forall a | a in Run(cfg, s, events).accepted :: Authentic(cfg, a)
    decreases |events|
  {
    if events != [] {
      NextInv(cfg, s, events[0]);
      AcceptedAreAuthentic(cfg, Next(cfg, s, events[0]), events[1..]);
    }
  }

  // ---- one request on its own ----

  lemma RefusedAlone(cfg: Config, s: State, r: Request, elapsed: nat)
    requires s.inflight == map[] && !Passes(cfg, s.keys, s.clock, r)
    ensures Run(cfg, s, [Arrive(0, r), CheckSignature(0), Tick(elapsed), RedeemNonce(0)]) == s.(clock := s.clock + elapsed)
  {
    ReachedFour(Step(cfg), s, Arrive(0, r), CheckSignature(0), Tick(elapsed), RedeemNonce(0));
    PassesIff(cfg, s.keys, s.clock, r);
    var s1 := Next(cfg, s, Arrive(0, r));
    if Admit(cfg, s.clock, r).Admitted? {
      assert Next(cfg, s1, CheckSignature(0)).inflight == map[];
    }
  }

  /** The steps of a request that nothing interrupts are the middleware: refused requests leave no trace, others
      are recorded with their date, and accepted unless their nonce is on record. */
  lemma RequestAlone(cfg: Config, s: State, r: Request, elapsed: nat)
    requires s.inflight == map[] && Passes(cfg, s.keys, s.clock, r)
    ensures var s' := Run(cfg, s, [Arrive(0, r), CheckSignature(0), Tick(elapsed), RedeemNonce(0)]);
      var keyID, ts, later := s.keys[r.device].keyID, cfg.parseDate(r.date).value, s.clock + elapsed;
      && s'.keys == s.keys && s'.inflight == map[] && s'.clock == later
      && s'.nonces == Recorded(s.nonces, cfg.ttl, later, keyID, r.nonce, ts)
      && (if Seen(s.nonces, cfg.ttl, later, keyID, r.nonce) then s'.accepted == s.accepted
          else |s'.accepted| == |s.accepted| + 1 && s'.accepted[..|s.accepted|] == s.accepted && s'.accepted[|s.accepted|].r == r)
  {
    ReachedFour(Step(cfg), s, Arrive(0, r), CheckSignature(0), Tick(elapsed), RedeemNonce(0));
    PassesIff(cfg, s.keys, s.clock, r);
    var a := Admit(cfg, s.clock, r);
    AdmitMeans(cfg, s.clock, r);
    VerifyMeans(cfg, s.keys, r, a.keyID, a.signature);
    var s1 := Next(cfg, s, Arrive(0, r));
    var s2 := Next(cfg, s1, CheckSignature(0));
    var s3 := Next(cfg, s2, Tick(elapsed));
    assert s3.inflight == map[0 := Verified(r, a.keyID, a.signature, s.keys[r.device].secret, a.ts, s.clock)];
    assert Next(cfg, s3, RedeemNonce(0)).inflight == map[];
  }

  // ---- where keys come from ----

  /** Keys on file, and those that requests in flight or accepted were verified with, are all among put. */
  ghost predicate KeysAmong(put: (string, KeyInfo) -> bool, s: State) {
    && (forall d | d in s.keys :: put(d, s.keys[d]))
    && (forall id | id in s.inflight && s.inflight[id].Verified? ::
          put(s.inflight[id].r.device, KeyInfo(s.inflight[id].keyID, s.inflight[id].secret)))
    && (forall a | a in s.accepted :: put(a.r.device, KeyInfo(a.keyID, a.secret)))
  }

  lemma NextKeysAmong(cfg: Config, put: (string, KeyInfo) -> bool, s: State, e: Event)
    requires KeysAmong(put, s) && (e.PutKey? ==> put(e.device, KeyInfo(e.keyID, e.secret)))
    ensures KeysAmong(put, Next(cfg, s, e))
  {
    if e.CheckSignature? && e.id in s.inflight && s.inflight[e.id].Checked? {
      var c := s.inflight[e.id];
      VerifyMeans(cfg, s.keys, c.r, c.keyID, c.signature);
      assert c.r.device in s.keys ==> s.keys[c.r.device] == KeyInfo(s.keys[c.r.device].keyID, s.keys[c.r.device].secret);
    }
  }

  lemma {:induction false} RunKeysAmong(cfg: Config, put: (string, KeyInfo) -> bool, s: State, events: seq<Event>)
    requires KeysAmong(put, s) && forall e | e in events && e.PutKey? :: put(e.device, KeyInfo(e.keyID, e.secret))
    ensures KeysAmong(put, Run(cfg, s, events))
    decreases |events|
  {
    if events != [] {
      NextKeysAmong(cfg, put, s, events[0]);
      RunKeysAmong(cfg, put, Next(cfg, s, events[0]), events[1..]);
    }
  }

  /** Over any interleaving, whatever was accepted was signed with a secret that had been put for its own
      device under its own key ID. */
  lemma AcceptedKeysWerePut(cfg: Config, clock: int, events: seq<Event>, a: Acceptance)
    requires a in Run(cfg, Start(clock), events).accepted
    ensures PutKey(a.r.device, a.keyID, a.secret) in events
  {
    var put := (d: string, k: KeyInfo) => PutKey(d, k.keyID, k.secret) in events;
    RunKeysAmong(cfg, put, Start(clock), events);
  }

  lemma RedeemNoReplay(cfg: Config, s: State, e: Event, delay: int)
    requires Inv(cfg, s) && NoReplay(s.accepted)
    requires Window(cfg.maxSkew) + delay <= cfg.ttl
    requires e.RedeemNonce? && e.id in s.inflight ==> s.clock <= s.inflight[e.id].checkedAt + delay
    ensures NoReplay(Next(cfg, s, e).accepted)
  {
    if e.RedeemNonce? && e.id in s.inflight && s.inflight[e.id].Verified? {
      var v := s.inflight[e.id];
      forall a | a in s.accepted && Same(a, Acceptable(v)) ensures Seen(s.nonces, cfg.ttl, s.clock, v.keyID, v.r.nonce) {
        assert OnRecord(cfg, s, a) && v.ts >= v.checkedAt - Window(cfg.maxSkew);
      }
    }
  }

  lemma {:induction false} AtMostOnce(cfg: Config, s: State, events: seq<Event>, delay: int)
    requires Inv(cfg, s) && NoReplay(s.accepted)
    requires Window(cfg.maxSkew) + delay <= cfg.ttl && Prompt(cfg, s, events, delay)
    ensures NoReplay(Run(cfg, s, events).accepted)
    decreases |events|
  {
    if events != [] {
      NextInv(cfg, s, events[0]);
      RedeemNoReplay(cfg, s, events[0], delay);
      AtMostOnce(cfg, Next(cfg, s, events[0]), events[1..], delay);
    }
  }

  /** A correctly signed request with the given date. */
  function Genuine(cfg: Config, date: string): Request {
    var secret: Bytes := [1];
    var unsigned := Request("GET", "/", "", "d", date, "n", "", "", Some([]));
    unsigned.(auth := SCHEME + "k" + ":" + cfg.mac(secret, Canonical(SignedPart(cfg, unsigned))))
  }

  /** The run that uses Genuine twice: redeemed at its own date, and again after the window and the delay. */
  function TwoUses(cfg: Config, date: string, delay: nat): seq<Event>
  {
    [PutKey("d", "k", [1]), Arrive(0, Genuine(cfg, date)), CheckSignature(0), RedeemNonce(0),
     Tick(Window(cfg.maxSkew)), Arrive(0, Genuine(cfg, date)), CheckSignature(0), Tick(delay), RedeemNonce(0)]
  }

  lemma GenuineAdmitted(cfg: Config, date: string, ts: int, now: int)
    requires date != "" && cfg.parseDate(date) == Some(ts) && InWindow(ts, now, Window(cfg.maxSkew))
    ensures var r, mac := Genuine(cfg, date), cfg.mac([1], Canonical(SignedPart(cfg, Genuine(cfg, date))));
      Admit(cfg, now, r) == Admitted("k", mac, ts)
      && Verify(cfg, map["d" := KeyInfo("k", [1])], r, "k", mac) == Passed([1])
  {
    var r := Genuine(cfg, date);
    var mac := cfg.mac([1], Canonical(SignedPart(cfg, r)));
    AuthorizationSplit(r.auth, "k", mac);
  }

  /** The first four events of TwoUses: the request is accepted and recorded. */
  lemma FirstUse(cfg: Config, date: string, ts: int)
    requires date != "" && cfg.parseDate(date) == Some(ts)
    ensures var r, mac := Genuine(cfg, date), cfg.mac([1], Canonical(SignedPart(cfg, Genuine(cfg, date))));
      var s := Next(cfg, Next(cfg, Next(cfg, Next(cfg, Start(ts), PutKey("d", "k", [1])), Arrive(0, r)), CheckSignature(0)), RedeemNonce(0));
      s == State(ts, map["d" := KeyInfo("k", [1])], map["k" := map["n" := ts]], map[], [Acceptance(r, "k", mac, [1], ts, ts)])
  {
    GenuineAdmitted(cfg, date, ts, ts);
    var r := Genuine(cfg, date);
    var s1 := Next(cfg, Start(ts), PutKey("d", "k", [1]));
    assert s1.keys == map["d" := KeyInfo("k", [1])];
    var s2 := Next(cfg, s1, Arrive(0, r));
    var s3 := Next(cfg, s2, CheckSignature(0));
    var s4 := Next(cfg, s3, RedeemNonce(0));
    assert Live(Row(map[], "k"), ts - cfg.ttl) == map[];
    assert s4.inflight == map[];
  }

  /** The remaining five: collection has dropped the record, so the same request is accepted again. */
  lemma SecondUse(cfg: Config, date: string, ts: int, delay: nat)
    requires date != "" && cfg.parseDate(date) == Some(ts) && Window(cfg.maxSkew) + delay > cfg.ttl
    ensures var r, mac := Genuine(cfg, date), cfg.mac([1], Canonical(SignedPart(cfg, Genuine(cfg, date))));
      var s := State(ts, map["d" := KeyInfo("k", [1])], map["k" := map["n" := ts]], map[], [Acceptance(r, "k", mac, [1], ts, ts)]);
      var es := [Tick(Window(cfg.maxSkew)), Arrive(0, r), CheckSignature(0), Tick(delay), RedeemNonce(0)];
      Prompt(cfg, s, es, delay) && !NoReplay(Run(cfg, s, es).accepted)
  {
    var r, mac := Genuine(cfg, date), cfg.mac([1], Canonical(SignedPart(cfg, Genuine(cfg, date))));
    var a := Acceptance(r, "k", mac, [1], ts, ts);
    var s := State(ts, map["d" := KeyInfo("k", [1])], map["k" := map["n" := ts]], map[], [a]);
    GenuineAdmitted(cfg, date, ts, ts + Window(cfg.maxSkew));
    var s1 := Next(cfg, s, Tick(Window(cfg.maxSkew)));
    var s2 := Next(cfg, s1, Arrive(0, r));
    var s3 := Next(cfg, s2, CheckSignature(0));
    var s4 := Next(cfg, s3, Tick(delay));
    var s5 := Next(cfg, s4, RedeemNonce(0));
    assert s4.inflight[0] == Verified(r, "k", mac, [1], ts, ts + Window(cfg.maxSkew));
    assert s5.accepted == [a, Acceptance(r, "k", mac, [1], ts, ts + Window(cfg.maxSkew))];
    assert Same(s5.accepted[0], s5.accepted[1]);
    ReachedFive(Step(cfg), s, Tick(Window(cfg.maxSkew)), Arrive(0, r), CheckSignature(0), Tick(delay), RedeemNonce(0));
    GuardedFive(Step(cfg), s, Tick(Window(cfg.maxSkew)), Arrive(0, r), CheckSignature(0), Tick(delay), RedeemNonce(0), InTime(delay));
  }

  lemma FirstFour(cfg: Config, date: string, ts: int, delay: nat)
    requires date != "" && cfg.parseDate(date) == Some(ts)
    ensures var r := Genuine(cfg, date);
      var es := [PutKey("d", "k", [1]), Arrive(0, r), CheckSignature(0), RedeemNonce(0)];
      && Run(cfg, Start(ts), es) == Next(cfg, Next(cfg, Next(cfg, Next(cfg, Start(ts), PutKey("d", "k", [1])), Arrive(0, r)), CheckSignature(0)), RedeemNonce(0))
      && Prompt(cfg, Start(ts), es, delay)
  {
    var r := Genuine(cfg, date);
    var a, b, c, d := PutKey("d", "k", [1]), Arrive(0, r), CheckSignature(0), RedeemNonce(0);
    GenuineAdmitted(cfg, date, ts, ts);
    var s1 := Next(cfg, Start(ts), a);
    assert s1.keys == map["d" := KeyInfo("k", [1])];
    var s2 := Next(cfg, s1, b);
    var s3 := Next(cfg, s2, c);
    assert s3.inflight[0].checkedAt == ts && s3.clock == ts;
    ReachedFour(Step(cfg), Start(ts), a, b, c, d);
    GuardedFour(Step(cfg), Start(ts), a, b, c, d, InTime(delay));
  }

  /** The state after the first use. */
  function UsedOnce(cfg: Config, date: string, ts: int): State {
    var r, mac := Genuine(cfg, date), cfg.mac([1], Canonical(SignedPart(cfg, Genuine(cfg, date))));
    State(ts, map["d" := KeyInfo("k", [1])], map["k" := map["n" := ts]], map[], [Acceptance(r, "k", mac, [1], ts, ts)])
  }

  lemma FirstUseRun(cfg: Config, date: string, ts: int, delay: nat)
    requires date != "" && cfg.parseDate(date) == Some(ts)
    ensures var es := [PutKey("d", "k", [1]), Arrive(0, Genuine(cfg, date)), CheckSignature(0), RedeemNonce(0)];
      Run(cfg, Start(ts), es) == UsedOnce(cfg, date, ts) && Prompt(cfg, Start(ts), es, delay)
  {
    FirstUse(cfg, date, ts);
    FirstFour(cfg, date, ts, delay);
  }

  lemma ReplayPossible(cfg: Config, date: string, ts: int, delay: nat)
    requires date != "" && cfg.parseDate(date) == Some(ts) && Window(cfg.maxSkew) + delay > cfg.ttl
    ensures Prompt(cfg, Start(ts), TwoUses(cfg, date, delay), delay)
    ensures !NoReplay(Run(cfg, Start(ts), TwoUses(cfg, date, delay)).accepted)
  {
    var r := Genuine(cfg, date);
    var es := [PutKey("d", "k", [1]), Arrive(0, r), CheckSignature(0), RedeemNonce(0)];
    var fs := [Tick(Window(cfg.maxSkew)), Arrive(0, r), CheckSignature(0), Tick(delay), RedeemNonce(0)];
    FirstUseRun(cfg, date, ts, delay);
    SecondUse(cfg, date, ts, delay);
    JoinRuns(cfg, Start(ts), es, fs, delay);
    assert TwoUses(cfg, date, delay) == es + fs;
  }

  lemma JoinRuns(cfg: Config, s: State, es: seq<Event>, fs: seq<Event>, delay: int)
    ensures Run(cfg, s, es + fs) == Run(cfg, Run(cfg, s, es), fs)
    ensures Prompt(cfg, s, es + fs, delay) <==> Prompt(cfg, s, es, delay) && Prompt(cfg, Run(cfg, s, es), fs, delay)
  {
    ReachedConcat(Step(cfg), s, es, fs);
    GuardedConcat(Step(cfg), s, es, fs, InTime(delay));
  }

  /** At most once per (key, nonce, date), over every run of prompt handlers from any clock: exactly when
      the skew window and the handler delay together fit into the table's ttl. */
  lemma AtMostOnceIff(cfg: Config, date: string, delay: nat)
    requires date != "" && cfg.parseDate(date).Some?
    ensures (forall clock, events: seq<Event> | Prompt(cfg, Start(clock), events, delay) :: NoReplay(Run(cfg, Start(clock), events).accepted))
      <==> Window(cfg.maxSkew) + delay <= cfg.ttl
  {
    if Window(cfg.maxSkew) + delay <= cfg.ttl {
      forall clock, events: seq<Event> | Prompt(cfg, Start(clock), events, delay)
        ensures NoReplay(Run(cfg, Start(clock), events).accepted)
      {
        AtMostOnce(cfg, Start(clock), events, delay);
      }
    } else {
      ReplayPossible(cfg, date, cfg.parseDate(date).value, delay);
    }
  }

  /** As wired: a window of 5 minutes and a ttl of 10 leave 5 minutes for reading the body. */
  lemma WiredAtMostOnce(cfg: Config, clock: int, events: seq<Event>)
    requires cfg.maxSkew == 300_000_000_000 && cfg.ttl == 600_000_000_000
    requires Prompt(cfg, Start(clock), events, 300_000_000_000)
    ensures NoReplay(Run(cfg, Start(clock), events).accepted)
  {
    AtMostOnce(cfg, Start(clock), events, 300_000_000_000);
  }
}
