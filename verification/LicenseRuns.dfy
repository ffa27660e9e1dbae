/**
 Runs of the license validator in which calls overlap: a call begins with the lookup and, when it misses, finishes
 after its awaits, while the clock, the revocation set and other calls go on in between.
 */
module LicenseRuns {
  import opened Wrappers
  import opened TokenCodec
  import opened LicenseValidation

  datatype Call = Call(rawKey: string, feature: string)

  datatype State = State(nowMs: int, revoked: set<string>, cache: Cache, pending: map<nat, Pending>)

  datatype Event =
    | SetClock(ms: int)
    | SetRevoked(ids: set<string>)
    | BeginCall(id: nat, call: Call)
    | FinishCall(id: nat)

  type Run = seq<Event>

  function At(s: State, c: Call): Request {
    Request(c.rawKey, c.feature, s.nowMs, s.revoked)
  }

  /** A call id in use and a finish of no call change nothing. */
  function Next(w: World, s: State, e: Event): State {
    match e
    case SetClock(ms) => s.(nowMs := ms)
    case SetRevoked(ids) => s.(revoked := ids)
    case BeginCall(id, c) =>
      if id in s.pending then s
      else
        var begun := Begin(w, s.cache, At(s, c));
        if begun.Answered? then s else s.(pending := s.pending[id := begun.call])
    case FinishCall(id) =>
      if id !in s.pending then s
      else s.(cache := StoredAfter(w, s.cache, s.pending[id], s.nowMs, s.revoked), pending := s.pending - {id})
  }

  /** The call the event answers, and the answer. */
  function Answer(w: World, s: State, e: Event): Option<(Call, Result<Claims, Code>)> {
    match e
    case BeginCall(id, c) =>
      if id in s.pending then None
      else
        var begun := Begin(w, s.cache, At(s, c));
        if begun.Answered? then Some((c, begun.answer)) else None
    case FinishCall(id) =>
      if id !in s.pending then None
      else
        var p := s.pending[id];
        Some((Call(p.rawKey, p.feature), Finish(w, p, s.nowMs, s.revoked)))
    case _ => None
  }

  function Before(es: Run): (b: Run)
    requires es != []
    ensures |b| == |es| - 1
  {
    es[..|es| - 1]
  }

  const START: State := State(0, {}, map[], map[])

  function After(w: World, es: Run): State
    decreases |es|
  {
    if es == [] then START else Next(w, After(w, Before(es)), es[|es| - 1])
  }

  lemma LastStep(w: World, es: Run, e: Event)
    ensures After(w, es + [e]) == Next(w, After(w, es), e)
  {
    assert Before(es + [e]) == es;
  }

  // ---------------------------------------------------------------- when the cache cannot be noticed

  /** The second call finds the entry of the first, although their keys are not the same token. */
  predicate Conflict(isJson: seq<Byte> -> bool, a: Call, b: Call) {
    && CacheKey(a.rawKey, a.feature) == CacheKey(b.rawKey, b.feature)
    && ParseToken(a.rawKey, isJson).Ok?
    && ParseToken(b.rawKey, isJson) != ParseToken(a.rawKey, isJson)
  }

  ghost predicate ConflictFree(isJson: seq<Byte> -> bool, calls: iset<Call>) {
    forall a, b :: a in calls && b in calls ==> !Conflict(isJson, a, b)
  }

  ghost predicate Among(es: Run, calls: iset<Call>) {
    forall e <- es :: e.BeginCall? ==> e.call in calls
  }

  ghost function AnyCalls(): iset<Call> {
    iset c: Call | |c.rawKey| >= 0
  }

  /** If the event answers a call, then as validation without a cache would at that moment. */
  ghost predicate Unnoticed(w: World, es: Run, e: Event) {
    var s := After(w, es);
    var a := Answer(w, s, e);
    a.Some? ==> a.value.1 == Cacheless(w, At(s, a.value.0))
  }

  ghost predicate StoredBy(w: World, slot: string, c: Claims, a: Call) {
    CacheKey(a.rawKey, a.feature) == slot && StaticChecks(w, a.rawKey) == Ok(c)
  }

  /** Every entry was left by one of the calls, and every pending call is one of them. */
  ghost predicate Coherent(w: World, calls: iset<Call>, s: State) {
    && (forall slot <- s.cache :: exists a :: a in calls && StoredBy(w, slot, s.cache[slot], a))
    && (forall id <- s.pending ::
          IsPending(w, s.pending[id]) && Call(s.pending[id].rawKey, s.pending[id].feature) in calls)
  }

  lemma {:induction false} RunsAreCoherent(w: World, calls: iset<Call>, es: Run)
    requires Among(es, calls)
    ensures Coherent(w, calls, After(w, es))
    decreases |es|
  {
    if es != [] {
      RunsAreCoherent(w, calls, Before(es));
      assert es[|es| - 1] in es;
      StepIsCoherent(w, calls, After(w, Before(es)), es[|es| - 1]);
    }
  }

  lemma StepIsCoherent(w: World, calls: iset<Call>, s: State, e: Event)
    requires Coherent(w, calls, s) && (e.BeginCall? ==> e.call in calls)
    ensures Coherent(w, calls, Next(w, s, e))
  {
    hide StaticChecks, LateChecks, CacheKey, ParseToken, Finish;
    var s' := Next(w, s, e);
    if e.FinishCall? && e.id in s.pending {
      var p := s.pending[e.id];
      FinishIsCacheless(w, p, s.nowMs, s.revoked);
      forall slot | slot in s'.cache ensures exists a :: a in calls && StoredBy(w, slot, s'.cache[slot], a) {
        if Finish(w, p, s.nowMs, s.revoked).Ok? && slot == CacheKey(p.rawKey, p.feature) {
          assert StoredBy(w, slot, s'.cache[slot], Call(p.rawKey, p.feature));
        }
      }
    }
  }

  lemma SameTokenSameChecks(w: World, k1: string, k2: string)
    requires ParseToken(k1, w.isJson) == ParseToken(k2, w.isJson)
    ensures StaticChecks(w, k1) == StaticChecks(w, k2)
  {
  }

  lemma StaticChecksParse(w: World, k: string)
    ensures StaticChecks(w, k).Ok? ==> ParseToken(k, w.isJson).Ok?
  {
  }

  /** The event answers the call b. */
  ghost predicate Answers(w: World, es: Run, e: Event, b: Call) {
    Answer(w, After(w, es), e).Some? && Answer(w, After(w, es), e).value.0 == b
  }

  /** A call with which none of the calls of the run conflicts gets the cacheless answer. */
  lemma UnlessOneConflicts(w: World, calls: iset<Call>, es: Run, e: Event, b: Call)
    requires Among(es, calls) && Answers(w, es, e, b)
    requires forall a :: a in calls ==> !Conflict(w.isJson, a, b)
    ensures Unnoticed(w, es, e)
  {
    RunsAreCoherent(w, calls, es);
    var s := After(w, es);
    match e
    case BeginCall(id, c) =>
      var slot := CacheKey(c.rawKey, c.feature);
      if slot in s.cache {
        var a :| a in calls && StoredBy(w, slot, s.cache[slot], a);
        hide After, StaticChecks, LateChecks, ParseToken;
        StaticChecksParse(w, a.rawKey);
        assert !Conflict(w.isJson, a, c);
        SameTokenSameChecks(w, a.rawKey, c.rawKey);
      }
    case FinishCall(id) => FinishIsCacheless(w, s.pending[id], s.nowMs, s.revoked);
    case _ =>
  }

  /** Over any run of overlapping calls that do not conflict, whatever the clock and the revocation set do, every
      answer, claims or error code, is the cacheless one at the moment of its late checks. */
  lemma CacheIsTransparent(w: World, calls: iset<Call>, es: Run, e: Event)
    requires ConflictFree(w.isJson, calls) && Among(es, calls) && (e.BeginCall? ==> e.call in calls)
    ensures Unnoticed(w, es, e)
  {
    if Answer(w, After(w, es), e).Some? {
      var b := Answer(w, After(w, es), e).value.0;
      RunsAreCoherent(w, calls, es);
      assert b in calls;
      hide Answer, After, Next, Conflict;
      UnlessOneConflicts(w, calls, es, e, b);
    }
  }

  /** In a conflict the second key is malformed: two keys that share a cache key and both parse are one token. */
  lemma ConflictIsMalformed(isJson: seq<Byte> -> bool, a: Call, b: Call)
    requires CacheKey(a.rawKey, a.feature) == CacheKey(b.rawKey, b.feature) && ParseToken(a.rawKey, isJson).Ok?
    ensures Conflict(isJson, a, b) <==> ParseToken(b.rawKey, isJson).Err?
  {
    hide ParseToken;
    if ParseToken(b.rawKey, isJson).Ok? && a.rawKey != b.rawKey {
      var x := SlotExtension(a, b);
      if |a.rawKey| <= |b.rawKey| {
        ExtensionIsTheSameToken(a.rawKey, x, isJson);
      } else {
        ExtensionIsTheSameToken(b.rawKey, x, isJson);
      }
    }
  }

  /** Of two keys that share a cache key one is the other, or goes on after it with a '|'. */
  lemma SlotExtension(a: Call, b: Call) returns (x: string)
    requires CacheKey(a.rawKey, a.feature) == CacheKey(b.rawKey, b.feature) && a.rawKey != b.rawKey
    ensures x != "" && x[0] == '|'
    ensures if |a.rawKey| <= |b.rawKey| then b.rawKey == a.rawKey + x else a.rawKey == b.rawKey + x
  {
    if |a.rawKey| <= |b.rawKey| {
      SlotsAreSharedIff(a.rawKey, a.feature, b.rawKey, b.feature);
      var y :| b.rawKey == a.rawKey + "|" + y && a.feature == y + "|" + b.feature;
      x := "|" + y;
    } else {
      SlotsAreSharedIff(b.rawKey, b.feature, a.rawKey, a.feature);
      var y :| a.rawKey == b.rawKey + "|" + y && b.feature == y + "|" + a.feature;
      x := "|" + y;
    }
  }

  /** A call whose key parses gets the cacheless answer in every run, whatever the other calls are. */
  lemma ParsedCallIsUnnoticed(w: World, es: Run, e: Event, b: Call)
    requires Answers(w, es, e, b) && ParseToken(b.rawKey, w.isJson).Ok?
    ensures Unnoticed(w, es, e)
  {
    hide Answers, ParseToken;
    forall a: Call ensures !Conflict(w.isJson, a, b) {
      if CacheKey(a.rawKey, a.feature) == CacheKey(b.rawKey, b.feature) && ParseToken(a.rawKey, w.isJson).Ok? {
        ConflictIsMalformed(w.isJson, a, b);
      }
    }
    UnlessOneConflicts(w, AnyCalls(), es, e, b);
  }

  /** Two calls, the first accepted: the second reads the entry of the first if they have the same cache key. */
  function FirstAccepted(a: Call, ms: int, ids: set<string>): Run {
    [SetClock(ms), SetRevoked(ids), BeginCall(0, a), FinishCall(0)]
  }

  lemma AfterFirstAccepted(w: World, a: Call, ms: int, ids: set<string>, c: Claims)
    requires Cacheless(w, Request(a.rawKey, a.feature, ms, ids)) == Ok(c)
    ensures After(w, FirstAccepted(a, ms, ids)) == State(ms, ids, map[CacheKey(a.rawKey, a.feature) := c], map[])
  {
    hide CacheKey, ParseToken, LateChecks, KeyAndTier;
    var e1: Run := [SetClock(ms)];
    var e2, e3 := e1 + [SetRevoked(ids)], e1 + [SetRevoked(ids)] + [BeginCall(0, a)];
    assert [] + e1 == e1;
    LastStep(w, [], SetClock(ms));
    LastStep(w, e1, SetRevoked(ids));
    LastStep(w, e2, BeginCall(0, a));
    LastStep(w, e3, FinishCall(0));
    assert e3 + [FinishCall(0)] == FirstAccepted(a, ms, ids);
    var t := ParseToken(a.rawKey, w.isJson).value;
    LateChecksKeepClaims(w, w.schema(t.payload).value, Request(a.rawKey, a.feature, ms, ids));
    assert After(w, e2) == State(ms, ids, map[], map[]);
    assert After(w, e3).pending == map[0 := Pending(a.rawKey, a.feature, t, c)];
  }

  lemma SecondReadsTheEntry(w: World, a: Call, b: Call, ms: int, ids: set<string>, c: Claims)
    requires CacheKey(a.rawKey, a.feature) == CacheKey(b.rawKey, b.feature)
    requires Cacheless(w, Request(a.rawKey, a.feature, ms, ids)) == Ok(c)
    ensures var s := After(w, FirstAccepted(a, ms, ids));
            && At(s, b) == Request(b.rawKey, b.feature, ms, ids)
            && Answer(w, s, BeginCall(1, b)) == Some((b, LateChecks(w, c, At(s, b))))
  {
    hide CacheKey, LateChecks, Cacheless;
    AfterFirstAccepted(w, a, ms, ids, c);
  }

  const GOOD_CLAIMS := Claims("lic", Enterprise, ["*"], 0, 0, 1)

  /** A world in which the one key verifies the token t and no other. */
  function OnlyVerifies(isJson: seq<Byte> -> bool, t: ParsedToken): World {
    World(isJson, _ => Some(GOOD_CLAIMS), (k, s, p) => s == t.signature && p == t.payload,
          [TrustedKey(0, None, None)], 0, false)
  }

  /** A conflict is noticed: some world and some run answer the second call differently. */
  lemma ConflictIsNoticed(isJson: seq<Byte> -> bool, a: Call, b: Call)
    requires Conflict(isJson, a, b)
    ensures var w := OnlyVerifies(isJson, ParseToken(a.rawKey, isJson).value);
            w.isJson == isJson && !Unnoticed(w, FirstAccepted(a, 0, {}), BeginCall(1, b))
  {
    hide ParseToken, CacheKey, After, Answer, Next;
    var t := ParseToken(a.rawKey, isJson).value;
    var w := OnlyVerifies(isJson, t);
    assert Accepts(w, w.keys[0], GOOD_CLAIMS, t);
    assert Cacheless(w, Request(a.rawKey, a.feature, 0, {})) == Ok(GOOD_CLAIMS);
    SecondReadsTheEntry(w, a, b, 0, {}, GOOD_CLAIMS);
    assert LateChecks(w, GOOD_CLAIMS, Request(b.rawKey, b.feature, 0, {})).Ok?;
    OtherTokensFail(isJson, t, b.rawKey);
  }

  lemma OtherTokensFail(isJson: seq<Byte> -> bool, t: ParsedToken, rawKey: string)
    requires ParseToken(rawKey, isJson) != Ok(t)
    ensures StaticChecks(OnlyVerifies(isJson, t), rawKey).Err?
  {
    hide ParseToken;
    var w := OnlyVerifies(isJson, t);
    if ParseToken(rawKey, isJson).Ok? {
      var u := ParseToken(rawKey, isJson).value;
      assert u.payload != t.payload || u.signature != t.signature;
      assert forall k <- w.keys :: !Accepts(w, k, GOOD_CLAIMS, u);
    }
  }

  /** The exact condition. For any set of calls, no world, clock, revocation set or interleaving lets the cache be
      noticed if and only if no two of the calls conflict. */
  lemma TransparentIffConflictFree(isJson: seq<Byte> -> bool, calls: iset<Call>)
    ensures (forall w: World, es: Run, e: Event :: w.isJson == isJson && Among(es + [e], calls) ==> Unnoticed(w, es, e))
              <==> ConflictFree(isJson, calls)
  {
    hide Conflict, Unnoticed;
    if ConflictFree(isJson, calls) {
      forall w: World, es: Run, e: Event | w.isJson == isJson && Among(es + [e], calls) ensures Unnoticed(w, es, e) {
        assert e in es + [e] && forall x <- es :: x in es + [e];
        CacheIsTransparent(w, calls, es, e);
      }
    } else {
      var a, b :| a in calls && b in calls && Conflict(isJson, a, b);
      ConflictIsNoticed(isJson, a, b);
      assert Among(FirstAccepted(a, 0, {}) + [BeginCall(1, b)], calls);
    }
  }

  /** The exact condition for one call: it gets the cacheless answer in every world and run if and only if its key
      parses or no key that parses shares its cache key. */
  lemma CallIsUnnoticedIff(isJson: seq<Byte> -> bool, b: Call)
    ensures (forall w: World, es: Run, e: Event :: w.isJson == isJson && Answers(w, es, e, b) ==> Unnoticed(w, es, e))
              <==> ParseToken(b.rawKey, isJson).Ok? || NobodyParsesAt(isJson, CacheKey(b.rawKey, b.feature))
  {
    hide ParseToken, CacheKey, Unnoticed, Answer, After;
    if ParseToken(b.rawKey, isJson).Ok? {
      forall w: World, es: Run, e: Event | w.isJson == isJson && Answers(w, es, e, b) ensures Unnoticed(w, es, e) {
        ParsedCallIsUnnoticed(w, es, e, b);
      }
    } else if NobodyParsesAt(isJson, CacheKey(b.rawKey, b.feature)) {
      forall w: World, es: Run, e: Event | w.isJson == isJson && Answers(w, es, e, b) ensures Unnoticed(w, es, e) {
        UnlessOneConflicts(w, AnyCalls(), es, e, b);
      }
    } else {
      var a: Call :| CacheKey(a.rawKey, a.feature) == CacheKey(b.rawKey, b.feature) && ParseToken(a.rawKey, isJson).Ok?;
      var w := OnlyVerifies(isJson, ParseToken(a.rawKey, isJson).value);
      ConflictIsNoticed(isJson, a, b);
      NoticedIsAnswered(w, FirstAccepted(a, 0, {}), 1, b);
    }
  }

  ghost predicate NobodyParsesAt(isJson: seq<Byte> -> bool, slot: string) {
    forall a: Call :: CacheKey(a.rawKey, a.feature) == slot ==> ParseToken(a.rawKey, isJson).Err?
  }

  lemma NoticedIsAnswered(w: World, es: Run, id: nat, b: Call)
    requires !Unnoticed(w, es, BeginCall(id, b))
    ensures Answers(w, es, BeginCall(id, b), b)
  {
  }

  /** Keys free of '|' never conflict, nor do feature ids free of '|', which all declared ones are. */
  lemma SeparatedCallsAreConflictFree(isJson: seq<Byte> -> bool)
    ensures ConflictFree(isJson, iset c: Call | '|' !in c.rawKey)
    ensures ConflictFree(isJson, iset c: Call | '|' !in c.feature)
  {
    forall a: Call, b: Call | CacheKey(a.rawKey, a.feature) == CacheKey(b.rawKey, b.feature)
      && (('|' !in a.rawKey && '|' !in b.rawKey) || ('|' !in a.feature && '|' !in b.feature))
      ensures a == b
    {
      if |a.rawKey| <= |b.rawKey| {
        SlotsAreSharedIff(a.rawKey, a.feature, b.rawKey, b.feature);
      } else {
        SlotsAreSharedIff(b.rawKey, b.feature, a.rawKey, a.feature);
      }
    }
  }

  /** A conflict the code can meet: once a token is accepted from a key written with a '|' after its dot, the key cut
      off at that '|' is malformed, and yet answered with the claims. */
  lemma SharedSlotAcceptsAMalformedKey(w: World, payload: seq<Byte>, signature: seq<Byte>, c: Claims, k: TrustedKey,
                                       feature: string, ms: int, ids: set<string>)
    requires payload != [] && |signature| == SIGNATURE_LENGTH && w.isJson(payload) && w.schema(payload) == Some(c)
    requires k in w.keys && Accepts(w, k, c, ParsedToken(payload, signature)) && !(c.tier.Developer? && w.production)
    requires c.nbf - w.skew <= ms / 1000 < c.exp + w.skew && "*" in c.features && c.lid !in ids
    ensures var cut := PREFIX + Encode(payload) + ".";
            var a, b := Call(cut + "|" + Encode(signature), feature), Call(cut, Encode(signature) + "|" + feature);
            var s := After(w, FirstAccepted(a, ms, ids));
            && Answer(w, s, BeginCall(1, b)) == Some((b, Ok(c)))
            && Cacheless(w, At(s, b)) == Err(MalformedKey)
  {
    var cut := PREFIX + Encode(payload) + ".";
    var a, b := Call(cut + "|" + Encode(signature), feature), Call(cut, Encode(signature) + "|" + feature);
    BarIsSkipped(payload, signature, w.isJson);
    CutKeyIsMalformed(payload, w.isJson);
    hide Encode, ParseToken, Next, After, Answer;
    AcceptedIff(w, Request(a.rawKey, a.feature, ms, ids), c);
    AcceptedLate(w, c, b, ms, ids);
    SameSlot(cut, Encode(signature), feature);
    hide LateChecks, CacheKey;
    SecondReadsTheEntry(w, a, b, ms, ids, c);
  }

  lemma SameSlot(cut: string, x: string, feature: string)
    ensures CacheKey(cut + "|" + x, feature) == CacheKey(cut, x + "|" + feature)
  {
  }

  lemma AcceptedLate(w: World, c: Claims, b: Call, ms: int, ids: set<string>)
    requires c.nbf - w.skew <= ms / 1000 < c.exp + w.skew && "*" in c.features && c.lid !in ids
    ensures LateChecks(w, c, Request(b.rawKey, b.feature, ms, ids)) == Ok(c)
  {
  }

  /** The decoder skips the '|'. */
  lemma BarIsSkipped(payload: seq<Byte>, signature: seq<Byte>, isJson: seq<Byte> -> bool)
    requires payload != [] && |signature| == SIGNATURE_LENGTH && isJson(payload)
    ensures ParseToken(PREFIX + Encode(payload) + "." + "|" + Encode(signature), isJson)
        == Ok(ParsedToken(payload, signature))
  {
    var p, tail := Encode(payload), "|" + Encode(signature);
    EncodeIsEmptyOnlyForNothing(payload);
    DecodeEncode(payload);
    DecodeEncode(signature);
    assert tail[1..] == Encode(signature);
    assert Read(tail) == Read(Encode(signature));
    hide Encode, Read;
    SplitsAtTheDot(p, tail);
    assert PREFIX + p + "." + "|" + Encode(signature) == PREFIX + p + "." + tail;
  }

  lemma CutKeyIsMalformed(payload: seq<Byte>, isJson: seq<Byte> -> bool)
    ensures ParseToken(PREFIX + Encode(payload) + ".", isJson).Err?
  {
    EncodeIsEmptyOnlyForNothing(payload);
    hide Encode;
    SplitsAtTheDot(Encode(payload), "");
    assert PREFIX + Encode(payload) + "." == PREFIX + Encode(payload) + "." + "";
  }

  // ---------------------------------------------------------------- the class

  class Validator {
    const world: World
    var cache: Cache

    constructor (world: World)
      ensures this.world == world && cache == map[]
    {
      this.world := world;
      cache := map[];
    }

    /** The key loop. */
    method SignatureOk(c: Claims, t: ParsedToken) returns (ok: bool)
      ensures ok <==> exists k <- world.keys :: Accepts(world, k, c, t)
    {
      ok := false;
      for i := 0 to |world.keys|
        invariant forall j :: 0 <= j < i ==> !Accepts(world, world.keys[j], c, t)
      {
        var tk := world.keys[i];
        if tk.notBefore.Some? && c.iat < tk.notBefore.value { continue; }
        if tk.notAfter.Some? && c.iat > tk.notAfter.value { continue; }
        if world.verify(tk.crypto, t.signature, t.payload) {
          assert Accepts(world, tk, c, t);
          return true;
        }
      }
    }

    /** validate up to its first await. */
    method ValidateUpToAwait(r: Request) returns (begun: Begun)
      ensures begun == Begin(world, cache, r)
      ensures begun.Awaiting? ==> IsPending(world, begun.call)
    {
      var slot := CacheKey(r.rawKey, r.feature);
      if slot in cache { return Answered(LateChecks(world, cache[slot], r)); }
      var parsed := ParseToken(r.rawKey, world.isJson);
      if parsed.Err? { return Answered(Err(MalformedKey)); }
      var claims := world.schema(parsed.value.payload);
      if claims.None? { return Answered(Err(SchemaInvalid)); }
      begun := Awaiting(Pending(r.rawKey, r.feature, parsed.value, claims.value));
    }

    /** The rest of validate. */
    method ValidateAfterAwait(p: Pending, nowMs: int, revoked: set<string>) returns (answer: Result<Claims, Code>)
      requires IsPending(world, p)
      modifies this
      ensures answer == Cacheless(world, Request(p.rawKey, p.feature, nowMs, revoked))
      ensures cache == StoredAfter(world, old(cache), p, nowMs, revoked)
    {
      FinishIsCacheless(world, p, nowMs, revoked);
      hide Cacheless, ParseToken;
      if world.keys == [] { return Err(NoTrustedKeys); }
      var ok := SignatureOk(p.claims, p.token);
      if !ok { return Err(InvalidSignature); }
      if p.claims.tier.Developer? && world.production { return Err(DevKeyInProduction); }
      var r := Request(p.rawKey, p.feature, nowMs, revoked);
      var late := TemporalAndFeature(world, p.claims, r);
      if late.Some? { return Err(late.value); }
      var gone := Revocation(p.claims, r);
      if gone.Some? { return Err(gone.value); }
      cache := cache[CacheKey(p.rawKey, p.feature) := p.claims];
      answer := Ok(p.claims);
    }
  }
}
