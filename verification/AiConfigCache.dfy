/**
 The per-organisation TTL caches of apps/api/src/config/ai.ts. A load looks into its cache, queries the table
 on a miss, and stores what it read when the reply arrives. The three steps are separate events, so that
 loads, writes to the table and invalidations interleave in any order. One table is modelled by `State`;
 the provider rows and the feature rows are two such tables.
 */
module AiConfigCache {
  import opened Wrappers
  import opened AiResolver

  const TTL: int := 5 * 60 * 1000

  datatype Entry<R> = Entry(loadedAt: int, value: seq<R>)

  type Cache<R> = map<string, Entry<R>>

  function Hit<R>(c: Cache<R>, tenant: string, now: int): Option<seq<R>> {
    if tenant in c && now - c[tenant].loadedAt < TTL then Some(c[tenant].value) else None
  }

  function Stored<R>(c: Cache<R>, tenant: string, now: int, rows: seq<R>): Cache<R> {
    c[tenant := Entry(now, rows)]
  }

  function Dropped<R>(c: Cache<R>, tenant: string): Cache<R> {
    c - {tenant}
  }

  /** A hit is an entry stored less than five minutes ago. */
  lemma HitIff<R>(c: Cache<R>, tenant: string, now: int)
    ensures Hit(c, tenant, now).Some? <==> tenant in c && now < c[tenant].loadedAt + 300000
    ensures Hit(c, tenant, now).Some? ==> Hit(c, tenant, now).value == c[tenant].value
  {
  }

  // ---------------------------------------------------------------- the module's state

  class AiConfig {
    var providersCache: Cache<ProviderRow>
    var featuresCache: Cache<FeatureRow>

    constructor ()
      ensures providersCache == map[] && featuresCache == map[]
    {
      providersCache, featuresCache := map[], map[];
    }

    /** Up to the first await of the loader: the cached rows, or None when the table has to be queried. */
    method LookUpProviders(tenant: string, now: int) returns (hit: Option<seq<ProviderRow>>)
      ensures hit == Hit(providersCache, tenant, now)
      ensures hit.Some? <==> tenant in providersCache && now < providersCache[tenant].loadedAt + 300000
    {
      hit := None;
      if tenant in providersCache {
        var entry := providersCache[tenant];
        if now - entry.loadedAt < TTL { hit := Some(entry.value); }
      }
    }

    /** After the await: the rows are stored under the time of their arrival. */
    method StoreProviders(tenant: string, now: int, rows: seq<ProviderRow>)
      modifies this
      ensures providersCache == Stored(old(providersCache), tenant, now, rows)
      ensures featuresCache == old(featuresCache)
      ensures Hit(providersCache, tenant, now) == Some(rows)
    {
      providersCache := providersCache[tenant := Entry(now, rows)];
    }

    method LookUpFeatures(tenant: string, now: int) returns (hit: Option<seq<FeatureRow>>)
      ensures hit == Hit(featuresCache, tenant, now)
      ensures hit.Some? <==> tenant in featuresCache && now < featuresCache[tenant].loadedAt + 300000
    {
      hit := None;
      if tenant in featuresCache {
        var entry := featuresCache[tenant];
        if now - entry.loadedAt < TTL { hit := Some(entry.value); }
      }
    }

    method StoreFeatures(tenant: string, now: int, rows: seq<FeatureRow>)
      modifies this
      ensures featuresCache == Stored(old(featuresCache), tenant, now, rows)
      ensures providersCache == old(providersCache)
      ensures Hit(featuresCache, tenant, now) == Some(rows)
    {
      featuresCache := featuresCache[tenant := Entry(now, rows)];
    }

    /** Both caches forget the organisation, and only it. */
    method InvalidateAIConfigCache(tenant: string)
      modifies this
      ensures providersCache == Dropped(old(providersCache), tenant)
      ensures featuresCache == Dropped(old(featuresCache), tenant)
      ensures forall now :: Hit(providersCache, tenant, now).None? && Hit(featuresCache, tenant, now).None?
      ensures forall other, now | other != tenant ::
                && Hit(providersCache, other, now) == Hit(old(providersCache), other, now)
                && Hit(featuresCache, other, now) == Hit(old(featuresCache), other, now)
    {
      providersCache := providersCache - {tenant};
      featuresCache := featuresCache - {tenant};
    }
  }

  // ---------------------------------------------------------------- one table with its cache, over time

  datatype Ticket = Ticket(tenant: string, n: nat)

  datatype Load<R> = Load(start: int, read: Option<seq<R>>)

  datatype State<R> = State(now: int, db: map<string, seq<R>>, cache: Cache<R>, loads: map<Ticket, Load<R>>)

  datatype Event<R> =
    | Tick(ms: nat)
    | Write(tenant: string, rows: seq<R>)  // somebody changes the organisation's rows
    | Invalidate(tenant: string)
    | Start(k: Ticket)                     // a loader is called
    | Read(k: Ticket)                      // its query reads the table
    | Finish(k: Ticket)                    // its reply arrives
    | Fail(k: Ticket)                      // its query rejects

  function Rows<R>(db: map<string, seq<R>>, tenant: string): seq<R> {
    if tenant in db then db[tenant] else []
  }

  predicate Replied<R>(s: State<R>, k: Ticket) {
    k in s.loads && s.loads[k].read.Some?
  }

  /** Events about a load that is not under way change nothing. */
  function Next<R>(s: State<R>, e: Event<R>): State<R> {
    match e
    case Tick(ms) => s.(now := s.now + ms)
    case Write(t, rows) => s.(db := s.db[t := rows])
    case Invalidate(t) => s.(cache := Dropped(s.cache, t))
    case Start(k) =>
      if k in s.loads || Hit(s.cache, k.tenant, s.now).Some? then s else s.(loads := s.loads[k := Load(s.now, None)])
    case Read(k) =>
      if k in s.loads && s.loads[k].read.None?
      then s.(loads := s.loads[k := s.loads[k].(read := Some(Rows(s.db, k.tenant)))]) else s
    case Finish(k) =>
      if Replied(s, k)
      then s.(cache := Stored(s.cache, k.tenant, s.now, s.loads[k].read.value), loads := s.loads - {k}) else s
    case Fail(k) => s.(loads := s.loads - {k})
  }

  /** The rows a loader returns to its caller at this event, if it returns any. */
  function Answer<R>(s: State<R>, e: Event<R>): Option<seq<R>> {
    match e
    case Start(k) => if k in s.loads then None else Hit(s.cache, k.tenant, s.now)
    case Finish(k) => if Replied(s, k) then s.loads[k].read else None
    case _ => None
  }

  type Run<R> = seq<Event<R>>

  function After<R>(es: Run<R>): State<R>
    decreases |es|
  {
    if es == [] then State(0, map[], map[], map[]) else Next(After(Before(es)), es[|es| - 1])
  }

  function Before<R>(es: Run<R>): (b: Run<R>)
    requires es != []
    ensures |b| == |es| - 1
  {
    es[..|es| - 1]
  }

  // ---------------------------------------------------------------- bounded staleness

  /** Every reply arrives within d milliseconds of the call. */
  ghost predicate Prompt<R>(es: Run<R>, d: int)
    decreases |es|
  {
    es == [] || (Prompt(Before(es), d) && InTime(After(Before(es)), es[|es| - 1], d))
  }

  ghost predicate InTime<R>(s: State<R>, e: Event<R>, d: int) {
    e.Finish? && Replied(s, e.k) ==> s.now - s.loads[e.k].start <= d
  }

  /** These were the organisation's rows in the table at some instant of the run no earlier than `from`. */
  ghost predicate HeldSince<R>(es: Run<R>, tenant: string, rows: seq<R>, from: int)
    decreases |es|
  {
    || (After(es).now >= from && Rows(After(es).db, tenant) == rows)
    || (es != [] && HeldSince(Before(es), tenant, rows, from))
  }

  ghost predicate LoadsAreRecent<R>(es: Run<R>) {
    var s := After(es);
    forall k <- s.loads :: s.loads[k].read.Some? ==> HeldSince(es, k.tenant, s.loads[k].read.value, s.loads[k].start)
  }

  ghost predicate StartsArePast<R>(es: Run<R>) {
    var s := After(es);
    forall k <- s.loads :: s.loads[k].start <= s.now
  }

  ghost predicate EntriesAreRecent<R>(es: Run<R>, d: int) {
    var s := After(es);
    forall t <- s.cache :: HeldSince(es, t, s.cache[t].value, s.cache[t].loadedAt - d)
  }

  lemma {:induction false} HeldEarlier<R>(es: Run<R>, tenant: string, rows: seq<R>, from: int, earlier: int)
    requires earlier <= from && HeldSince(es, tenant, rows, from)
    ensures HeldSince(es, tenant, rows, earlier)
    decreases |es|
  {
    if !(After(es).now >= from && Rows(After(es).db, tenant) == rows) {
      HeldEarlier(Before(es), tenant, rows, from, earlier);
    }
  }

  lemma {:induction false} CachesAreRecent<R>(es: Run<R>, d: int)
    requires Prompt(es, d)
    ensures StartsArePast(es) && LoadsAreRecent(es) && EntriesAreRecent(es, d)
    decreases |es|
  {
    if es != [] {
      CachesAreRecent(Before(es), d);
      LoadsStayRecent(es);
      EntriesStayRecent(es, d);
    }
  }

  lemma LoadsStayRecent<R>(es: Run<R>)
    requires es != [] && StartsArePast(Before(es)) && LoadsAreRecent(Before(es))
    ensures StartsArePast(es) && LoadsAreRecent(es)
  {
    var s, s' := After(Before(es)), After(es);
    forall k | k in s'.loads && s'.loads[k].read.Some?
      ensures HeldSince(es, k.tenant, s'.loads[k].read.value, s'.loads[k].start)
    {
      assert k in s.loads;
    }
  }

  lemma EntriesStayRecent<R>(es: Run<R>, d: int)
    requires es != [] && LoadsAreRecent(Before(es)) && EntriesAreRecent(Before(es), d)
    requires InTime(After(Before(es)), es[|es| - 1], d)
    ensures EntriesAreRecent(es, d)
  {
    var s, s', e := After(Before(es)), After(es), es[|es| - 1];
    forall t | t in s'.cache ensures HeldSince(es, t, s'.cache[t].value, s'.cache[t].loadedAt - d) {
      if e.Finish? && Replied(s, e.k) && e.k.tenant == t {
        HeldEarlier(Before(es), t, s.loads[e.k].read.value, s.loads[e.k].start, s.now - d);
      }
    }
  }

  /** A load that misses, reads and gets its reply returns the rows it read, and leaves them for the next caller. */
  lemma LoadReturnsWhatItRead<R>(s: State<R>, k: Ticket)
    requires k !in s.loads && Hit(s.cache, k.tenant, s.now).None?
    ensures var s1 := Next(s, Start(k));
            var s2 := Next(s1, Read(k));
            var s3 := Next(s2, Finish(k));
            && Answer(s, Start(k)) == None && Answer(s1, Read(k)) == None
            && k in s2.loads && Answer(s2, Finish(k)) == Some(Rows(s.db, k.tenant))
            && s3.loads == s.loads && s3.db == s.db && Answer(s3, Start(k)) == Some(Rows(s.db, k.tenant))
  {
    assert s.loads - {k} == s.loads;
  }

  /** A load that fails returns nothing, is over, and leaves the cache as it was. */
  lemma FailedLoadLeavesNoTrace<R>(s: State<R>, k: Ticket)
    ensures var s' := Next(s, Fail(k));
            Answer(s, Fail(k)) == None && k !in s'.loads && s'.cache == s.cache && s'.db == s.db && s'.now == s.now
  {
  }

  /** Whatever a loader returns were the organisation's rows at some instant less than the TTL plus the longest
      query ago, however loads, writes and invalidations interleave. */
  lemma BoundedStaleness<R>(es: Run<R>, e: Event<R>, d: nat)
    requires Prompt(es + [e], d) && Answer(After(es), e).Some?
    ensures HeldSince(es, e.k.tenant, Answer(After(es), e).value, After(es).now - TTL - d + 1)
  {
    var s := After(es);
    assert Before(es + [e]) == es;
    CachesAreRecent(es, d);
    if e.Start? {
      HeldEarlier(es, e.k.tenant, s.cache[e.k.tenant].value, s.cache[e.k.tenant].loadedAt - d, s.now - TTL - d + 1);
    } else {
      HeldEarlier(es, e.k.tenant, s.loads[e.k].read.value, s.loads[e.k].start, s.now - TTL - d + 1);
    }
  }

  // ---------------------------------------------------------------- agreement with the table

  /** No load of the organisation has read the table without having stored its rows yet. */
  ghost predicate NothingRead<R>(s: State<R>, tenant: string) {
    forall k <- s.loads :: k.tenant == tenant ==> s.loads[k].read.None?
  }

  /** Since the last change of the organisation's rows there was an invalidation that no half-done load straddled;
      a change needs none while nothing is cached or read. */
  ghost predicate Settled<R>(es: Run<R>, tenant: string)
    decreases |es|
  {
    es == [] ||
      match es[|es| - 1]
      case Write(t, _) =>
        if t == tenant then NothingRead(After(Before(es)), tenant) && tenant !in After(Before(es)).cache
        else Settled(Before(es), tenant)
      case Invalidate(t) => Settled(Before(es), tenant) || (t == tenant && NothingRead(After(Before(es)), tenant))
      case _ => Settled(Before(es), tenant)
  }

  ghost predicate Agrees<R>(s: State<R>, tenant: string) {
    && (tenant in s.cache ==> s.cache[tenant].value == Rows(s.db, tenant))
    && (forall k <- s.loads ::
          k.tenant == tenant && s.loads[k].read.Some? ==> s.loads[k].read.value == Rows(s.db, tenant))
  }

  lemma {:induction false} SettledAgrees<R>(es: Run<R>, tenant: string)
    requires Settled(es, tenant)
    ensures Agrees(After(es), tenant)
    decreases |es|
  {
    if es != [] && Settled(Before(es), tenant) { SettledAgrees(Before(es), tenant); }
  }

  /** In a settled moment a loader returns the rows of the table. */
  lemma AnswersAreTheTable<R>(es: Run<R>, e: Event<R>)
    requires Answer(After(es), e).Some? && Settled(es, e.k.tenant)
    ensures Answer(After(es), e).value == Rows(After(es).db, e.k.tenant)
  {
    SettledAgrees(es, e.k.tenant);
  }

  ghost predicate WritesNothing<R>(cs: Run<R>, tenant: string) {
    forall e <- cs :: e.Write? ==> e.tenant != tenant
  }

  /** From here on, until the organisation's rows change again, its loaders return these rows and no others. */
  ghost predicate ServesOnly<R(!new)>(es: Run<R>, tenant: string, rows: seq<R>) {
    forall cs: Run<R>, e: Event<R> ::
      WritesNothing(cs, tenant) && Answer(After(es + cs), e).Some? && e.k.tenant == tenant ==>
        Answer(After(es + cs), e).value == rows
  }

  lemma StepAgrees<R>(s: State<R>, e: Event<R>, tenant: string)
    requires Agrees(s, tenant) && (e.Write? ==> e.tenant != tenant)
    ensures Agrees(Next(s, e), tenant) && Rows(Next(s, e).db, tenant) == Rows(s.db, tenant)
  {
  }

  lemma {:induction false} QuietRunAgrees<R>(es: Run<R>, cs: Run<R>, tenant: string)
    requires Agrees(After(es), tenant) && WritesNothing(cs, tenant)
    ensures Agrees(After(es + cs), tenant) && Rows(After(es + cs).db, tenant) == Rows(After(es).db, tenant)
    decreases |cs|
  {
    if cs == [] {
      assert es + cs == es;
    } else {
      var last := cs[|cs| - 1];
      assert es + cs == (es + Before(cs)) + [last] && last in cs && forall e <- Before(cs) :: e in cs;
      QuietRunAgrees(es, Before(cs), tenant);
      LastStep(es + Before(cs), last);
      StepAgrees(After(es + Before(cs)), last, tenant);
    }
  }

  /** Every half-done load of the organisation has read what the table holds now. */
  ghost predicate HalfDoneLoadsAgree<R>(s: State<R>, tenant: string) {
    forall k <- s.loads :: k.tenant == tenant && s.loads[k].read.Some? ==> s.loads[k].read.value == Rows(s.db, tenant)
  }

  lemma HalfDoneLoadReturns<R(!new)>(es: Run<R>, k: Ticket, rows: seq<R>)
    requires Replied(After(es), k) && ServesOnly(es, k.tenant, rows)
    ensures After(es).loads[k].read == Some(rows)
  {
    assert es + [] == es;
    var cs: Run<R> := [];
    assert WritesNothing(cs, k.tenant) && Answer(After(es + cs), Finish(k)) == After(es).loads[k].read;
  }

  /** The exact condition at an invalidation: from there on loaders return the rows the table holds at it if and only if
      the half-done loads have read those rows. */
  lemma InvalidationIsExact<R(!new)>(es: Run<R>, tenant: string)
    ensures ServesOnly(es + [Invalidate(tenant)], tenant, Rows(After(es).db, tenant)) <==>
        HalfDoneLoadsAgree(After(es), tenant)
  {
    var s, es' := After(es), es + [Invalidate(tenant)];
    LastStep(es, Invalidate(tenant));
    if HalfDoneLoadsAgree(s, tenant) {
      forall cs: Run<R>, e: Event<R> | WritesNothing(cs, tenant) && Answer(After(es' + cs), e).Some?
          && e.k.tenant == tenant
        ensures Answer(After(es' + cs), e).value == Rows(s.db, tenant)
      {
        QuietRunAgrees(es', cs, tenant);
      }
    } else {
      var k :| k in s.loads && k.tenant == tenant && s.loads[k].read.Some?
          && s.loads[k].read.value != Rows(s.db, tenant);
      if ServesOnly(es', tenant, Rows(s.db, tenant)) { HalfDoneLoadReturns(es', k, Rows(s.db, tenant)); }
    }
  }

  function Changed<R>(es: Run<R>, tenant: string, rows: seq<R>): Run<R> {
    es + [Write(tenant, rows)] + [Invalidate(tenant)]
  }

  /** The exact condition for a change that is invalidated at once: whatever the new rows are, loaders return them from
      there on if and only if no load was half-done. (r shows that there are rows at all.) */
  lemma ChangeIsServedIff<R(!new)>(es: Run<R>, tenant: string, r: R)
    ensures (forall rows: seq<R> :: ServesOnly(Changed(es, tenant, rows), tenant, rows)) <==>
        NothingRead(After(es), tenant)
  {
    hide ServesOnly;
    forall rows: seq<R>
      ensures ServesOnly(Changed(es, tenant, rows), tenant, rows) <==>
              HalfDoneLoadsAgree(After(es + [Write(tenant, rows)]), tenant)
      ensures After(es + [Write(tenant, rows)]) == After(es).(db := After(es).db[tenant := rows])
    {
      LastStep(es, Write(tenant, rows));
      InvalidationIsExact(es + [Write(tenant, rows)], tenant);
    }
    if !NothingRead(After(es), tenant) {
      var k :| k in After(es).loads && k.tenant == tenant && After(es).loads[k].read.Some?;
      var rows := After(es).loads[k].read.value + [r];
      assert !HalfDoneLoadsAgree(After(es + [Write(tenant, rows)]), tenant);
    }
  }

  /** An instance: a load that read before the change and stores after the invalidation leaves the old rows in the
      cache, and the next caller gets them. */
  lemma StraddlingLoadServesOldRows<R>(tenant: string, rows: seq<R>)
    requires rows != []
    ensures var k := Ticket(tenant, 0);
            var es: Run<R> := [Start(k), Read(k), Write(tenant, rows), Invalidate(tenant), Finish(k)];
            Answer(After(es), Start(k)) == Some([]) && Rows(After(es).db, tenant) == rows
  {
    var k := Ticket(tenant, 0);
    var e1: Run<R> := [Start(k)];
    var e2, e3 := e1 + [Read(k)], e1 + [Read(k)] + [Write(tenant, rows)];
    var e4 := e3 + [Invalidate(tenant)];
    LastStep<R>([], Start(k));
    assert After(e1) == State(0, map[], map[], map[k := Load(0, None)]) by { assert [] + e1 == e1; }
    LastStep(e1, Read(k));
    assert After(e2) == State(0, map[], map[], map[k := Load(0, Some([]))]);
    LastStep(e2, Write(tenant, rows));
    assert After(e3) == State(0, map[tenant := rows], map[], map[k := Load(0, Some([]))]);
    LastStep(e3, Invalidate(tenant));
    assert After(e4) == After(e3);
    LastStep(e4, Finish(k));
    assert e4 + [Finish(k)] == [Start(k), Read(k), Write(tenant, rows), Invalidate(tenant), Finish(k)];
  }

  lemma LastStep<R>(es: Run<R>, e: Event<R>)
    ensures After(es + [e]) == Next(After(es), e)
  {
    assert Before(es + [e]) == es;
  }

  // ---------------------------------------------------------------- organisations do not disturb each other

  predicate Concerns<R>(e: Event<R>, tenant: string) {
    match e
    case Tick(_) => true
    case Write(t, _) => t == tenant
    case Invalidate(t) => t == tenant
    case Start(k) => k.tenant == tenant
    case Read(k) => k.tenant == tenant
    case Finish(k) => k.tenant == tenant
    case Fail(k) => k.tenant == tenant
  }

  function Only<R>(es: Run<R>, tenant: string): Run<R>
    decreases |es|
  {
    if es == [] then []
    else Only(Before(es), tenant) + (if Concerns(es[|es| - 1], tenant) then [es[|es| - 1]] else [])
  }

  /** The two states look the same to an organisation. */
  ghost predicate SameFor<R>(s: State<R>, s': State<R>, tenant: string) {
    && s.now == s'.now && Rows(s.db, tenant) == Rows(s'.db, tenant)
    && (tenant in s.cache <==> tenant in s'.cache) && (tenant in s.cache ==> s.cache[tenant] == s'.cache[tenant])
    && forall n: nat ::
         var k := Ticket(tenant, n);
         (k in s.loads <==> k in s'.loads) && (k in s.loads ==> s.loads[k] == s'.loads[k])
  }

  lemma StepTogether<R>(s: State<R>, s': State<R>, e: Event<R>, tenant: string)
    requires SameFor(s, s', tenant) && Concerns(e, tenant)
    ensures SameFor(Next(s, e), Next(s', e), tenant) && Answer(s, e) == Answer(s', e)
  {
  }

  lemma StepAside<R>(s: State<R>, e: Event<R>, tenant: string)
    requires !Concerns(e, tenant)
    ensures SameFor(Next(s, e), s, tenant)
  {
  }

  /** What an organisation sees of a whole run is what it would see with every other organisation's writes,
      loads and invalidations struck out. */
  lemma {:induction false} OrganisationsAreIndependent<R>(es: Run<R>, e: Event<R>, tenant: string)
    requires Concerns(e, tenant)
    ensures SameFor(After(es), After(Only(es, tenant)), tenant)
    ensures Answer(After(es), e) == Answer(After(Only(es, tenant)), e)
    decreases |es|
  {
    if es != [] {
      OrganisationsAreIndependent(Before(es), e, tenant);
      var last, kept := es[|es| - 1], Only(Before(es), tenant);
      if Concerns(last, tenant) {
        StepTogether(After(Before(es)), After(kept), last, tenant);
        assert Before(kept + [last]) == kept;
      } else {
        StepAside(After(Before(es)), last, tenant);
        assert kept + [] == kept;
      }
    }
    StepTogether(After(es), After(Only(es, tenant)), e, tenant);
  }
}
