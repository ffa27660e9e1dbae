/**
 Rejections over whole runs of the license validator: a key rejected as expired or revoked stays rejected, whatever
 other calls do to the cache, exactly when the key has the dot that ends its payload.
 */
module LicensePermanence {
  import opened Wrappers
  import opened TokenCodec
  import opened LicenseValidation
  import opened LicenseRuns

  /** The clock does not go back and the revocation set only grows. */
  ghost predicate Forward(w: World, es: Run)
    decreases |es|
  {
    es == [] || (Forward(w, Before(es)) && GoesForward(After(w, Before(es)), es[|es| - 1]))
  }

  predicate GoesForward(s: State, e: Event) {
    match e
    case SetClock(ms) => s.nowMs <= ms
    case SetRevoked(ids) => s.revoked <= ids
    case _ => true
  }

  lemma {:induction false} ForwardIsMonotone(w: World, es: Run, es': Run)
    requires es <= es' && Forward(w, es')
    ensures After(w, es).nowMs <= After(w, es').nowMs && After(w, es).revoked <= After(w, es').revoked
    decreases |es'|
  {
    if |es| < |es'| {
      ForwardIsMonotone(w, es, Before(es'));
      hide Begin, StoredAfter, Finish;
    } else {
      assert es == es';
    }
  }

  // ---------------------------------------------------------------- a key with a dot has one payload

  /** A text with the token prefix has a dot after it. */
  predicate Dotted(rawKey: string) {
    PREFIX <= rawKey ==> '.' in rawKey[|PREFIX|..]
  }

  /** Keys that parse are dotted. */
  lemma ParsedIsDotted(rawKey: string, isJson: seq<Byte> -> bool)
    requires ParseToken(rawKey, isJson).Ok?
    ensures Dotted(rawKey)
  {
    ParsedSegments(rawKey, isJson);
  }

  /** A dotted key has the payload of every token with which it shares a cache key. */
  lemma SharedSlotSharesThePayload(a: Call, b: Call)
    requires CacheKey(a.rawKey, a.feature) == CacheKey(b.rawKey, b.feature)
    requires PayloadSegment(a.rawKey).Some? && Dotted(b.rawKey)
    ensures PayloadSegment(b.rawKey) == PayloadSegment(a.rawKey)
  {
    if a.rawKey != b.rawKey {
      var x := SlotExtension(a, b);
      if |a.rawKey| <= |b.rawKey| {
        ExtensionKeepsThePayload(a.rawKey, x);
      } else {
        PrefixHasNoBar(b.rawKey, x);
        ExtensionKeepsThePayload(b.rawKey, x);
      }
    }
  }

  lemma PrefixHasNoBar(rawKey: string, x: string)
    requires PREFIX <= rawKey + x && x != "" && x[0] == '|'
    ensures PREFIX <= rawKey
  {
    assert (rawKey + x)[|rawKey|] == '|' && '|' !in PREFIX;
  }

  /** The answer is an error before the late checks, or the late checks of the claims in the key's own payload. */
  ghost predicate JudgesItsPayload(w: World, rawKey: string, r: Request, answer: Result<Claims, Code>) {
    || answer in {Err(MalformedKey), Err(SchemaInvalid), Err(NoTrustedKeys), Err(InvalidSignature),
        Err(DevKeyInProduction)}
    || (&& PayloadSegment(rawKey).Some? && w.schema(Decode(PayloadSegment(rawKey).value)).Some?
        && answer == LateChecks(w, w.schema(Decode(PayloadSegment(rawKey).value)).value, r))
  }

  lemma StaticPayload(w: World, rawKey: string)
    requires StaticChecks(w, rawKey).Ok?
    ensures PayloadSegment(rawKey).Some?
    ensures w.schema(Decode(PayloadSegment(rawKey).value)) == Some(StaticChecks(w, rawKey).value)
  {
    ParsedSegments(rawKey, w.isJson);
  }

  /** A dotted key is judged by its own payload, even from an entry that another key left. */
  lemma DottedJudgesItsPayload(w: World, es: Run, e: Event, b: Call)
    requires Answers(w, es, e, b) && Dotted(b.rawKey)
    ensures JudgesItsPayload(w, b.rawKey, At(After(w, es), b), Answer(w, After(w, es), e).value.1)
  {
    assert Among(es, AnyCalls());
    RunsAreCoherent(w, AnyCalls(), es);
    var s := After(w, es);
    match e
    case BeginCall(id, c) =>
      var slot := CacheKey(c.rawKey, c.feature);
      if slot in s.cache {
        var a :| a in AnyCalls() && StoredBy(w, slot, s.cache[slot], a);
        StaticPayload(w, a.rawKey);
        hide After, StaticChecks, LateChecks, ParseToken, PayloadSegment, Dotted;
        SharedSlotSharesThePayload(a, c);
      }
    case FinishCall(id) =>
      ParsedSegments(s.pending[id].rawKey, w.isJson);
    case _ =>
  }

  lemma LateIsPermanent(w: World, c: Claims, r: Request, r': Request)
    requires Later(r, r') && LateChecks(w, c, r) in {Err(Expired), Err(Revoked)}
    ensures LateChecks(w, c, r').Err?
  {
  }

  lemma JudgedIsPermanent(w: World, rawKey: string,
                          r: Request, a: Result<Claims, Code>, r': Request, a': Result<Claims, Code>)
    requires Later(r, r') && JudgesItsPayload(w, rawKey, r, a) && JudgesItsPayload(w, rawKey, r', a')
    requires a in {Err(Expired), Err(Revoked)}
    ensures a'.Err?
  {
    hide LateChecks, PayloadSegment;
    if a'.Ok? { LateIsPermanent(w, w.schema(Decode(PayloadSegment(rawKey).value)).value, r, r'); }
  }

  // ---------------------------------------------------------------- rejections stay

  /** In the run es', which goes forward, the event e answered a call with the key, expired or revoked, after es;
      and e' answers a call with the same key, for any feature, after es'. */
  ghost predicate AnsweredAgain(w: World, rawKey: string, es: Run, e: Event, es': Run, e': Event) {
    && Forward(w, es') && es + [e] <= es'
    && Answer(w, After(w, es), e).Some? && Answer(w, After(w, es), e).value.0.rawKey == rawKey
    && Answer(w, After(w, es), e).value.1 in {Err(Expired), Err(Revoked)}
    && Answer(w, After(w, es'), e').Some? && Answer(w, After(w, es'), e').value.0.rawKey == rawKey
  }

  ghost predicate Rejected(w: World, es: Run, e: Event) {
    Answer(w, After(w, es), e).Some? && Answer(w, After(w, es), e).value.1.Err?
  }

  /** In a run that goes forward, a dotted key rejected as expired or revoked is never accepted again, for any
      feature, by a call that begins or finishes later, from the cache or not, whatever the other calls are. */
  lemma RejectedStaysRejected(w: World, rawKey: string, es: Run, e: Event, es': Run, e': Event)
    requires AnsweredAgain(w, rawKey, es, e, es', e') && Dotted(rawKey)
    ensures Rejected(w, es', e')
  {
    var s, s' := After(w, es), After(w, es');
    var b, b' := Answer(w, s, e).value.0, Answer(w, s', e').value.0;
    DottedJudgesItsPayload(w, es, e, b);
    DottedJudgesItsPayload(w, es', e', b');
    assert es <= es';
    ForwardIsMonotone(w, es, es');
    hide Answer, After, JudgesItsPayload, Forward;
    JudgedIsPermanent(w, rawKey, At(s, b), Answer(w, s, e).value.1, At(s', b'), Answer(w, s', e').value.1);
  }

  /** In particular a key that parses. */
  lemma ParsedStaysRejected(w: World, rawKey: string, es: Run, e: Event, es': Run, e': Event)
    requires AnsweredAgain(w, rawKey, es, e, es', e') && ParseToken(rawKey, w.isJson).Ok?
    ensures Rejected(w, es', e')
  {
    ParsedIsDotted(rawKey, w.isJson);
    RejectedStaysRejected(w, rawKey, es, e, es', e');
  }

  /** And, in a run without conflicts, any key. */
  lemma StaysRejectedWithoutConflicts(w: World, calls: iset<Call>, rawKey: string, es: Run, e: Event, es': Run,
      e': Event)
    requires AnsweredAgain(w, rawKey, es, e, es', e')
    requires ConflictFree(w.isJson, calls) && Among(es + [e], calls)
    ensures Rejected(w, es', e')
  {
    assert e in es + [e] && forall x <- es :: x in es + [e];
    CacheIsTransparent(w, calls, es, e);
    StaticChecksParse(w, rawKey);
    hide Answer, After, StaticChecks, LateChecks, Forward;
    ParsedStaysRejected(w, rawKey, es, e, es', e');
  }

  // ---------------------------------------------------------------- and without the dot they do not

  const LAPSED := Claims("lapsed", Enterprise, ["*"], 0, 0, 1)
  const LASTING := Claims("lasting", Enterprise, ["*"], 0, 0, 9)

  function AnySignature(): string {
    Encode(seq(SIGNATURE_LENGTH, _ => 0))
  }

  /** An undotted key completed to a token, and the undotted key itself, with the same cache key. */
  function Completed(rawKey: string, middle: string): Call {
    Call(rawKey + "|" + (middle + "." + AnySignature()), "sso")
  }

  function Bare(rawKey: string, middle: string): Call {
    Call(rawKey, middle + "." + AnySignature() + "|" + "sso")
  }

  lemma BareSharesTheSlot(rawKey: string, middle: string)
    ensures CacheKey(Bare(rawKey, middle).rawKey, Bare(rawKey, middle).feature)
         == CacheKey(Completed(rawKey, middle).rawKey, Completed(rawKey, middle).feature)
  {
    var x := middle + "." + AnySignature();
    assert rawKey + "|" + (x + "|" + "sso") == rawKey + "|" + x + "|" + "sso";
  }

  function BarePayload(rawKey: string, middle: string): seq<Byte>
    requires PREFIX <= rawKey
  {
    Decode(rawKey[|PREFIX|..] + "|" + middle)
  }

  lemma CompletedParses(rawKey: string, middle: string, isJson: seq<Byte> -> bool)
    requires PREFIX <= rawKey && '.' !in rawKey[|PREFIX|..] && '.' !in middle && forall b :: isJson(b)
    ensures ParseToken(Completed(rawKey, middle).rawKey, isJson).Ok?
    ensures ParseToken(Completed(rawKey, middle).rawKey, isJson).value.payload == BarePayload(rawKey, middle)
  {
    var head := rawKey[|PREFIX|..] + "|" + middle;
    SignatureDecodes();
    CompletedIs(rawKey, middle);
    hide Decode, AnySignature, ParseToken, Completed;
    ParseHalves(head, AnySignature(), isJson);
  }

  lemma CompletedIs(rawKey: string, middle: string)
    requires PREFIX <= rawKey
    ensures Completed(rawKey, middle).rawKey == PREFIX + (rawKey[|PREFIX|..] + "|" + middle) + "." + AnySignature()
  {
    hide AnySignature;
    assert rawKey == PREFIX + rawKey[|PREFIX|..];
    JoinParts(PREFIX, rawKey[|PREFIX|..], middle, AnySignature());
  }

  lemma SignatureDecodes()
    ensures |Decode(AnySignature())| == SIGNATURE_LENGTH && AnySignature() != ""
  {
    DecodeEncode(seq(SIGNATURE_LENGTH, _ => 0));
    EncodeIsEmptyOnlyForNothing(seq(SIGNATURE_LENGTH, _ => 0));
  }

  lemma JoinParts(p: string, body: string, middle: string, z: string)
    ensures p + body + "|" + (middle + "." + z) == p + (body + "|" + middle) + "." + z
  {
  }

  /** Four characters of the alphabet decode to three more bytes. */
  lemma PayloadsDiffer(rawKey: string)
    requires PREFIX <= rawKey
    ensures |BarePayload(rawKey, "AAAA")| == |BarePayload(rawKey, "")| + 3
  {
    var x := rawKey[|PREFIX|..] + "|";
    ReadAdds(x, "AAAA");
    assert x + "" == x;
    ReadSpell([0, 0, 0, 0]);
    assert Spell([0, 0, 0, 0]) == "AAAA";
    DecodedLength(Read(x));
    DecodedLength(Read(x + "AAAA"));
  }

  /** Payloads of the length n carry the claims that lapse, all others the claims that last; every signature
      verifies. */
  function TwoPayloads(n: nat): World {
    World(_ => true, p => if |p| == n then Some(LAPSED) else Some(LASTING), (k, s, p) => true,
          [TrustedKey(0, None, None)], 0, false)
  }

  lemma AcceptedAtFirst(w: World, call: Call, c: Claims)
    requires exists n: nat :: w == TwoPayloads(n)
    requires c in {LAPSED, LASTING} && ParseToken(call.rawKey, w.isJson).Ok?
    requires w.schema(ParseToken(call.rawKey, w.isJson).value.payload) == Some(c)
    ensures Cacheless(w, Request(call.rawKey, call.feature, 0, {})) == Ok(c)
  {
    hide ParseToken;
    var t := ParseToken(call.rawKey, w.isJson).value;
    assert Accepts(w, w.keys[0], c, t);
  }

  lemma AcceptedBegins(w: World, s: State, a: Call, c: Claims)
    requires s.pending == map[] && CacheKey(a.rawKey, a.feature) !in s.cache && Cacheless(w, At(s, a)) == Ok(c)
    ensures ParseToken(a.rawKey, w.isJson).Ok?
    ensures Next(w, s, BeginCall(0, a))
         == s.(pending := map[0 := Pending(a.rawKey, a.feature, ParseToken(a.rawKey, w.isJson).value, c)])
  {
    hide CacheKey, ParseToken, LateChecks, KeyAndTier;
    LateChecksKeepClaims(w, w.schema(ParseToken(a.rawKey, w.isJson).value.payload).value, At(s, a));
  }

  lemma AcceptedFinishes(w: World, s: State, a: Call, c: Claims)
    requires s.pending.Keys == {0} && s.pending[0].rawKey == a.rawKey && s.pending[0].feature == a.feature
    requires s.pending[0].claims == c && IsPending(w, s.pending[0]) && Cacheless(w, At(s, a)) == Ok(c)
    ensures Next(w, s, FinishCall(0)) == s.(cache := s.cache[CacheKey(a.rawKey, a.feature) := c], pending := map[])
  {
    FinishIsCacheless(w, s.pending[0], s.nowMs, s.revoked);
    hide CacheKey, ParseToken, Finish, Cacheless;
    assert s.pending - {0} == map[];
  }

  /** An accepted call leaves its entry and nothing else. */
  lemma AcceptedCallIsStored(w: World, es: Run, a: Call, c: Claims)
    requires After(w, es).pending == map[] && CacheKey(a.rawKey, a.feature) !in After(w, es).cache
    requires Cacheless(w, At(After(w, es), a)) == Ok(c)
    ensures After(w, es + [BeginCall(0, a)] + [FinishCall(0)])
         == After(w, es).(cache := After(w, es).cache[CacheKey(a.rawKey, a.feature) := c])
  {
    var s, s' := After(w, es), After(w, es + [BeginCall(0, a)]);
    LastStep(w, es, BeginCall(0, a));
    LastStep(w, es + [BeginCall(0, a)], FinishCall(0));
    AcceptedBegins(w, s, a, c);
    AcceptedIff(w, At(s, a), c);
    hide CacheKey, ParseToken, Cacheless, After, Next;
    AcceptedFinishes(w, s', a, c);
  }

  function TwoAccepted(a: Call, b: Call): Run {
    [] + [BeginCall(0, a)] + [FinishCall(0)] + [BeginCall(0, b)] + [FinishCall(0)] + [SetClock(1000)]
  }

  lemma AfterTwoAccepted(w: World, a: Call, b: Call, c: Claims, d: Claims)
    requires CacheKey(a.rawKey, a.feature) != CacheKey(b.rawKey, b.feature)
    requires Cacheless(w, Request(a.rawKey, a.feature, 0, {})) == Ok(c)
    requires Cacheless(w, Request(b.rawKey, b.feature, 0, {})) == Ok(d)
    ensures After(w, TwoAccepted(a, b))
         == State(1000, {}, map[CacheKey(a.rawKey, a.feature) := c, CacheKey(b.rawKey, b.feature) := d], map[])
    ensures Forward(w, TwoAccepted(a, b))
  {
    var es: Run := [] + [BeginCall(0, a)] + [FinishCall(0)];
    var es' := es + [BeginCall(0, b)] + [FinishCall(0)];
    hide CacheKey, Cacheless;
    AcceptedCallIsStored(w, [], a, c);
    AcceptedCallIsStored(w, es, b, d);
    LastStep(w, es', SetClock(1000));
    hide After, Next;
    assert Forward(w, []);
    ForwardStep(w, [], BeginCall(0, a));
    ForwardStep(w, [] + [BeginCall(0, a)], FinishCall(0));
    ForwardStep(w, es, BeginCall(0, b));
    ForwardStep(w, es + [BeginCall(0, b)], FinishCall(0));
    ForwardStep(w, es', SetClock(1000));
  }

  lemma ForwardStep(w: World, es: Run, e: Event)
    requires Forward(w, es) && GoesForward(After(w, es), e)
    ensures Forward(w, es + [e])
  {
    assert Before(es + [e]) == es;
  }

  lemma SlotsDiffer(rawKey: string)
    ensures CacheKey(Completed(rawKey, "").rawKey, "sso") != CacheKey(Completed(rawKey, "AAAA").rawKey, "sso")
  {
    var x, y := CacheKey(Completed(rawKey, "").rawKey, "sso"), CacheKey(Completed(rawKey, "AAAA").rawKey, "sso");
    assert x[|rawKey| + 1] == '.' && y[|rawKey| + 1] == 'A';
  }

  /** A call that finds an entry is answered from it and changes nothing. */
  lemma FoundAnswers(w: World, es: Run, id: nat, b: Call, c: Claims)
    requires w.skew == 0 && After(w, es).nowMs == 1000 && After(w, es).revoked == {} && After(w, es).pending == map[]
    requires CacheKey(b.rawKey, b.feature) in After(w, es).cache
        && After(w, es).cache[CacheKey(b.rawKey, b.feature)] == c
    requires c in {LAPSED, LASTING}
    ensures Answer(w, After(w, es), BeginCall(id, b)) == Some((b, if c == LAPSED then Err(Expired) else Ok(c)))
    ensures After(w, es + [BeginCall(id, b)]) == After(w, es)
  {
    hide CacheKey, ParseToken;
    LastStep(w, es, BeginCall(id, b));
  }

  /** An undotted key is rejected as expired from the entry of one of its completions, and then accepted from that of
      another. */
  lemma UndottedComesBack(rawKey: string)
    requires !Dotted(rawKey)
    ensures var w := TwoPayloads(|BarePayload(rawKey, "")|);
            var es := TwoAccepted(Completed(rawKey, ""), Completed(rawKey, "AAAA"));
            var e, e' := BeginCall(1, Bare(rawKey, "")), BeginCall(2, Bare(rawKey, "AAAA"));
            AnsweredAgain(w, rawKey, es, e, es + [e], e') && !Rejected(w, es + [e], e')
  {
    var w := TwoPayloads(|BarePayload(rawKey, "")|);
    var a, b := Completed(rawKey, ""), Completed(rawKey, "AAAA");
    var es, e, e' := TwoAccepted(a, b), BeginCall(1, Bare(rawKey, "")), BeginCall(2, Bare(rawKey, "AAAA"));
    CompletedParses(rawKey, "", w.isJson);
    CompletedParses(rawKey, "AAAA", w.isJson);
    PayloadsDiffer(rawKey);
    SlotsDiffer(rawKey);
    BareSharesTheSlot(rawKey, "");
    BareSharesTheSlot(rawKey, "AAAA");
    hide BarePayload, ParseToken, CacheKey, Cacheless, TwoAccepted, After, Next, Forward;
    AcceptedAtFirst(w, a, LAPSED);
    AcceptedAtFirst(w, b, LASTING);
    AfterTwoAccepted(w, a, b, LAPSED, LASTING);
    FoundAnswers(w, es, 1, Bare(rawKey, ""), LAPSED);
    ForwardStep(w, es, e);
    FoundAnswers(w, es + [e], 2, Bare(rawKey, "AAAA"), LASTING);
  }

  /** The exact condition: a raw key rejected as expired or revoked stays rejected, in every world and run, if and only
      if it is dotted. */
  lemma PermanentIffDotted(rawKey: string)
    ensures (forall w: World, es: Run, e: Event, es': Run, e': Event ::
               AnsweredAgain(w, rawKey, es, e, es', e') ==> Rejected(w, es', e'))
              <==> Dotted(rawKey)
  {
    hide AnsweredAgain, Rejected;
    if Dotted(rawKey) {
      forall w: World, es: Run, e: Event, es': Run, e': Event | AnsweredAgain(w, rawKey, es, e, es', e')
        ensures Rejected(w, es', e')
      {
        RejectedStaysRejected(w, rawKey, es, e, es', e');
      }
    } else {
      UndottedComesBack(rawKey);
    }
  }
}
