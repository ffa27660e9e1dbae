/**
 LicenseValidator.validate of packages/license/src/validator.ts, with its memo cache.
 Signature verification, JSON and the claims schema are uninterpreted functions of a `World`; the clock and the
 revocation set are read by each half of a call; NODE_ENV is fixed. Whole runs are the business of `LicenseRuns`.
 */
module LicenseValidation {
  import opened Wrappers
  import opened TokenCodec

  datatype Tier = Enterprise | Developer

  datatype Claims = Claims(lid: string, tier: Tier, features: seq<string>, iat: int, nbf: int, exp: int)

  datatype TrustedKey = TrustedKey(crypto: nat, notBefore: Option<int>, notAfter: Option<int>)

  datatype World = World(
    isJson: seq<Byte> -> bool,
    schema: seq<Byte> -> Option<Claims>,
    verify: (nat, seq<Byte>, seq<Byte>) -> bool,   // key, signature, payload
    keys: seq<TrustedKey>,
    skew: int,
    production: bool)

  datatype Code =
    | MalformedKey | SchemaInvalid | NoTrustedKeys | InvalidSignature | DevKeyInProduction
    | NotYetValid | Expired | FeatureNotEntitled | Revoked

  /** A call of validate at a moment: the clock in milliseconds and the revocation set. */
  datatype Request = Request(rawKey: string, feature: string, nowMs: int, revoked: set<string>)

  // ---------------------------------------------------------------- the pipeline without the cache

  predicate InWindow(k: TrustedKey, iat: int) {
    !(k.notBefore.Some? && iat < k.notBefore.value) && !(k.notAfter.Some? && iat > k.notAfter.value)
  }

  predicate Accepts(w: World, k: TrustedKey, c: Claims, t: ParsedToken) {
    InWindow(k, c.iat) && w.verify(k.crypto, t.signature, t.payload)
  }

  /** The checks after the signature keys have been awaited that read neither clock nor revocation set nor feature. */
  function KeyAndTier(w: World, t: ParsedToken, c: Claims): Option<Code> {
    if w.keys == [] then Some(NoTrustedKeys)
    else if !exists k <- w.keys :: Accepts(w, k, c, t) then Some(InvalidSignature)
    else if c.tier.Developer? && w.production then Some(DevKeyInProduction)
    else None
  }

  /** The checks that depend on neither the clock nor the revocation set nor the feature. */
  function StaticChecks(w: World, rawKey: string): Result<Claims, Code> {
    match ParseToken(rawKey, w.isJson)
    case Err(_) => Err(MalformedKey)
    case Ok(t) =>
      match w.schema(t.payload)
      case None => Err(SchemaInvalid)
      case Some(c) =>
        match KeyAndTier(w, t, c)
        case Some(e) => Err(e)
        case None => Ok(c)
  }

  function TemporalAndFeature(w: World, c: Claims, r: Request): Option<Code> {
    var now := r.nowMs / 1000;
    if now + w.skew < c.nbf then Some(NotYetValid)
    else if now - w.skew >= c.exp then Some(Expired)
    else if r.feature != "*" && "*" !in c.features && r.feature !in c.features then Some(FeatureNotEntitled)
    else None
  }

  function Revocation(c: Claims, r: Request): Option<Code> {
    if c.lid in r.revoked then Some(Revoked) else None
  }

  function LateChecks(w: World, c: Claims, r: Request): Result<Claims, Code> {
    match TemporalAndFeature(w, c, r)
    case Some(e) => Err(e)
    case None =>
      match Revocation(c, r)
      case Some(e) => Err(e)
      case None => Ok(c)
  }

  /** What validate would answer at this moment if it had no cache. */
  function Cacheless(w: World, r: Request): Result<Claims, Code> {
    match StaticChecks(w, r.rawKey)
    case Err(e) => Err(e)
    case Ok(c) => LateChecks(w, c, r)
  }

  // ---------------------------------------------------------------- with the cache

  type Cache = map<string, Claims>

  function CacheKey(rawKey: string, feature: string): string {
    rawKey + "|" + feature
  }

  /** A call that has passed the lookup, the parse and the schema, and awaits the keys. */
  datatype Pending = Pending(rawKey: string, feature: string, token: ParsedToken, claims: Claims)

  datatype Begun = Answered(answer: Result<Claims, Code>) | Awaiting(call: Pending)

  /** validate up to its first await. */
  function Begin(w: World, cache: Cache, r: Request): Begun {
    var slot := CacheKey(r.rawKey, r.feature);
    if slot in cache then Answered(LateChecks(w, cache[slot], r))
    else
      match ParseToken(r.rawKey, w.isJson)
      case Err(_) => Answered(Err(MalformedKey))
      case Ok(t) =>
        match w.schema(t.payload)
        case None => Answered(Err(SchemaInvalid))
        case Some(c) => Awaiting(Pending(r.rawKey, r.feature, t, c))
  }

  /** The rest of validate, with the clock and the revocation set of the moment of its late checks. */
  function Finish(w: World, p: Pending, nowMs: int, revoked: set<string>): Result<Claims, Code> {
    match KeyAndTier(w, p.token, p.claims)
    case Some(e) => Err(e)
    case None => LateChecks(w, p.claims, Request(p.rawKey, p.feature, nowMs, revoked))
  }

  /** Only an accepted call leaves an entry. */
  function StoredAfter(w: World, cache: Cache, p: Pending, nowMs: int, revoked: set<string>): Cache {
    if Finish(w, p, nowMs, revoked).Ok? then cache[CacheKey(p.rawKey, p.feature) := p.claims] else cache
  }

  ghost predicate IsPending(w: World, p: Pending) {
    ParseToken(p.rawKey, w.isJson) == Ok(p.token) && w.schema(p.token.payload) == Some(p.claims)
  }

  /** The two halves of a call that missed make up the cacheless answer at the moment of its second half. */
  lemma FinishIsCacheless(w: World, p: Pending, nowMs: int, revoked: set<string>)
    requires IsPending(w, p)
    ensures Finish(w, p, nowMs, revoked) == Cacheless(w, Request(p.rawKey, p.feature, nowMs, revoked))
    ensures Finish(w, p, nowMs, revoked).Ok? ==> StaticChecks(w, p.rawKey) == Ok(p.claims)
  {
  }

  /** Two calls share a slot exactly when they are the same call or one key extends the other past a '|'. */
  lemma SlotsAreSharedIff(k1: string, f1: string, k2: string, f2: string)
    requires |k1| <= |k2|
    ensures CacheKey(k1, f1) == CacheKey(k2, f2) <==>
            (k1 == k2 && f1 == f2) || exists x :: k2 == k1 + "|" + x && f1 == x + "|" + f2
  {
    var s1, s2 := CacheKey(k1, f1), CacheKey(k2, f2);
    if s1 == s2 {
      assert s1[..|k1|] == k1 && s2[..|k2|] == k2 && s1[|k1| + 1..] == f1 && s2[|k2| + 1..] == f2;
      assert s1[|k1|] == '|';
      if |k1| < |k2| {
        var x := k2[|k1| + 1..];
        assert k2 == k1 + "|" + x;
        assert f1 == x + "|" + f2;
      }
    }
    if x :| k2 == k1 + "|" + x && f1 == x + "|" + f2 {
      assert s1 == s2;
    }
  }

  lemma LateChecksKeepClaims(w: World, c: Claims, r: Request)
    ensures LateChecks(w, c, r).Ok? ==> LateChecks(w, c, r).value == c
  {
  }

  // ---------------------------------------------------------------- what acceptance means

  /** The pipeline accepts if and only if every documented condition holds; its order only decides the error. */
  lemma AcceptedIff(w: World, r: Request, c: Claims)
    ensures Cacheless(w, r) == Ok(c) <==>
      && ParseToken(r.rawKey, w.isJson).Ok?
      && (var t := ParseToken(r.rawKey, w.isJson).value;
          w.schema(t.payload) == Some(c) && exists k <- w.keys :: Accepts(w, k, c, t))
      && !(c.tier.Developer? && w.production)
      && c.nbf - w.skew <= r.nowMs / 1000 < c.exp + w.skew
      && (r.feature == "*" || "*" in c.features || r.feature in c.features)
      && c.lid !in r.revoked
  {
    hide ParseToken;
  }

  /** Some trusted key of whose window the claims are verifies the token. */
  ghost predicate Genuine(w: World, c: Claims, t: ParsedToken) {
    exists k <- w.keys ::
      && (k.notBefore.Some? ==> k.notBefore.value <= c.iat) && (k.notAfter.Some? ==> c.iat <= k.notAfter.value)
      && w.verify(k.crypto, t.signature, t.payload)
  }

  /** Which answer a call gets, from the token, its claims, the clock and the revocation set: each of the nine codes if
      and only if its check is the first, in the documented order, that fails. */
  lemma FirstFailedCheckIsTheCode(w: World, r: Request)
    ensures var answer, token := Cacheless(w, r), ParseToken(r.rawKey, w.isJson);
            && (answer == Err(MalformedKey) <==> token.Err?)
            && (token.Ok? ==>
                  var claims := w.schema(token.value.payload);
                  && (answer == Err(SchemaInvalid) <==> claims.None?)
                  && (claims.Some? ==>
                        var c, now := claims.value, r.nowMs / 1000;
                        var genuine := Genuine(w, c, token.value);
                        var allowed := genuine && !(c.tier == Developer && w.production);
                        var begun := allowed && c.nbf <= now + w.skew;
                        var current := begun && now - w.skew < c.exp;
                        var entitled := current && (r.feature == "*" || "*" in c.features || r.feature in c.features);
                        && (answer == Err(NoTrustedKeys) <==> |w.keys| == 0)
                        && (answer == Err(InvalidSignature) <==> |w.keys| > 0 && !genuine)
                        && (answer == Err(DevKeyInProduction) <==> genuine && c.tier == Developer && w.production)
                        && (answer == Err(NotYetValid) <==> allowed && now + w.skew < c.nbf)
                        && (answer == Err(Expired) <==> begun && now - w.skew >= c.exp)
                        && (answer == Err(FeatureNotEntitled) <==>
                              current && r.feature != "*" && "*" !in c.features && r.feature !in c.features)
                        && (answer == Err(Revoked) <==> entitled && c.lid in r.revoked)
                        && (answer == Ok(c) <==> entitled && c.lid !in r.revoked)))
  {
    hide ParseToken;
    if ParseToken(r.rawKey, w.isJson).Ok? {
      var t := ParseToken(r.rawKey, w.isJson).value;
      if w.schema(t.payload).Some? {
        GenuineIsAccepted(w, w.schema(t.payload).value, t);
        hide Genuine, Accepts;
      }
    }
  }

  lemma GenuineIsAccepted(w: World, c: Claims, t: ParsedToken)
    ensures Genuine(w, c, t) <==> exists k <- w.keys :: Accepts(w, k, c, t)
    ensures Genuine(w, c, t) ==> |w.keys| > 0
  {
    forall k | k in w.keys
      ensures Accepts(w, k, c, t) <==>
              && (k.notBefore.Some? ==> k.notBefore.value <= c.iat) && (k.notAfter.Some? ==> c.iat <= k.notAfter.value)
              && w.verify(k.crypto, t.signature, t.payload)
    {
    }
  }

  /** Adding or reordering trusted keys never turns an accept into a reject. */
  lemma RotationKeepsAccepting(w: World, keys: seq<TrustedKey>, r: Request, c: Claims)
    requires Cacheless(w, r) == Ok(c) && forall k <- w.keys :: k in keys
    ensures Cacheless(w.(keys := keys), r) == Ok(c)
  {
    hide Cacheless, ParseToken;
    AcceptedIff(w, r, c);
    var t := ParseToken(r.rawKey, w.isJson).value;
    var k :| k in w.keys && Accepts(w, k, c, t);
    assert Accepts(w.(keys := keys), k, c, t);
    AcceptedIff(w.(keys := keys), r, c);
  }

  predicate Later(r: Request, r': Request) {
    r.rawKey == r'.rawKey && r.nowMs <= r'.nowMs && r.revoked <= r'.revoked
  }

  lemma RejectionIsPermanent(w: World, r: Request, r': Request)
    requires Later(r, r') && Cacheless(w, r) in {Err(Expired), Err(Revoked)}
    ensures Cacheless(w, r').Err?
  {
    hide StaticChecks;
  }
}
