/**
 resolveOrgAI of apps/api/src/config/ai.ts over both tables: one clock, two cached tables, invalidations that reach
 both caches, and calls that start both loads and end when the later of the two is through.
 */
module ResolveOrgAI {
  import opened Wrappers
  import opened AiResolver
  import opened AiConfigCache

  /** A call under way, with what its two loads have given so far. */
  datatype Call = Call(
    feature: string,
    providers: Option<Result<seq<ProviderRow>, LoadFailure>>,
    features: Option<Result<seq<FeatureRow>, LoadFailure>>)

  datatype Joint = Joint(providers: State<ProviderRow>, features: State<FeatureRow>, calls: map<Ticket, Call>)

  /** `managed` is what the managed-routing hook returned to the call. The steps of one table alone are Write, Read,
      Finish and Fail. */
  datatype JointEvent =
    | PassTime(ms: nat)
    | InvalidateBoth(tenant: string)
    | CallStarts(k: Ticket, feature: string, managed: Option<Resolved>)
    | OnProviders(providersStep: Event<ProviderRow>)
    | OnFeatures(featuresStep: Event<FeatureRow>)

  predicate OfOneTable<R>(e: Event<R>) {
    e.Write? || e.Read? || e.Finish? || e.Fail?
  }

  predicate StartsLoads(s: Joint, e: JointEvent) {
    e.CallStarts? && e.managed.None? && e.k !in s.calls
  }

  function ProvidersEvent(s: Joint, e: JointEvent): Option<Event<ProviderRow>> {
    match e
    case PassTime(ms) => Some(Tick(ms))
    case InvalidateBoth(t) => Some(Invalidate(t))
    case CallStarts(k, _, _) => if StartsLoads(s, e) then Some(Start(k)) else None
    case OnProviders(step) => if OfOneTable(step) then Some(step) else None
    case OnFeatures(_) => None
  }

  function FeaturesEvent(s: Joint, e: JointEvent): Option<Event<FeatureRow>> {
    match e
    case PassTime(ms) => Some(Tick(ms))
    case InvalidateBoth(t) => Some(Invalidate(t))
    case CallStarts(k, _, _) => if StartsLoads(s, e) then Some(Start(k)) else None
    case OnProviders(_) => None
    case OnFeatures(step) => if OfOneTable(step) then Some(step) else None
  }

  function NextTable<R>(s: State<R>, e: Option<Event<R>>): State<R> {
    if e.Some? then AiConfigCache.Next(s, e.value) else s
  }

  /** What the event makes a load give to its call: rows, or a failure. */
  function Given<R>(s: State<R>, e: Event<R>): Option<Result<seq<R>, LoadFailure>> {
    if e.Fail? then (if e.k in s.loads then Some(Err(LoadFailure)) else None)
    else if AiConfigCache.Answer(s, e).Some? then Some(Ok(AiConfigCache.Answer(s, e).value))
    else None
  }

  /** The call the event moves on, as it is afterwards. */
  function Moved(s: Joint, e: JointEvent): Option<(Ticket, Call)> {
    match e
    case CallStarts(k, feature, _) =>
      if StartsLoads(s, e) then Some((k, Call(feature, Given(s.providers, Start(k)), Given(s.features, Start(k)))))
          else None
    case OnProviders(step) =>
      if (step.Finish? || step.Fail?) && step.k in s.calls && Given(s.providers, step).Some?
      then Some((step.k, s.calls[step.k].(providers := Given(s.providers, step)))) else None
    case OnFeatures(step) =>
      if (step.Finish? || step.Fail?) && step.k in s.calls && Given(s.features, step).Some?
      then Some((step.k, s.calls[step.k].(features := Given(s.features, step)))) else None
    case _ => None
  }

  predicate Complete(c: Call) {
    c.providers.Some? && c.features.Some?
  }

  function NextJoint(s: Joint, e: JointEvent): Joint {
    var moved := Moved(s, e);
    Joint(NextTable(s.providers, ProvidersEvent(s, e)), NextTable(s.features, FeaturesEvent(s, e)),
          if moved.None? then s.calls
          else if Complete(moved.value.1) then s.calls - {moved.value.0}
          else s.calls[moved.value.0 := moved.value.1])
  }

  /** What resolveOrgAI returns at this event, if it returns: the override at once, else when both loads are through. */
  function Returned(op: Operator, s: Joint, e: JointEvent): Option<Result<Resolved, NotConfigured>> {
    var moved := Moved(s, e);
    if e.CallStarts? && e.k !in s.calls && e.managed.Some? then Some(Resolve(e.managed, op, e.feature, Ok([]), Ok([])))
    else if moved.Some? && Complete(moved.value.1)
    then Some(Resolve(None, op, moved.value.1.feature, moved.value.1.providers.value, moved.value.1.features.value))
    else None
  }

  type JointRun = seq<JointEvent>

  function BeforeLast(es: JointRun): (b: JointRun)
    requires es != []
    ensures |b| == |es| - 1
  {
    es[..|es| - 1]
  }

  function AfterJoint(es: JointRun): Joint
    decreases |es|
  {
    if es == [] then Joint(State(0, map[], map[], map[]), State(0, map[], map[], map[]), map[])
    else NextJoint(AfterJoint(BeforeLast(es)), es[|es| - 1])
  }

  // ---------------------------------------------------------------- each table sees a run of its own

  function Appended<R>(es: Run<R>, e: Option<Event<R>>): Run<R> {
    if e.Some? then es + [e.value] else es
  }

  function ProvidersRun(es: JointRun): Run<ProviderRow>
    decreases |es|
  {
    if es == [] then []
    else Appended(ProvidersRun(BeforeLast(es)), ProvidersEvent(AfterJoint(BeforeLast(es)), es[|es| - 1]))
  }

  function FeaturesRun(es: JointRun): Run<FeatureRow>
    decreases |es|
  {
    if es == [] then []
    else Appended(FeaturesRun(BeforeLast(es)), FeaturesEvent(AfterJoint(BeforeLast(es)), es[|es| - 1]))
  }

  /** The tables of a joint run are those of their own runs, and their clocks agree. */
  lemma {:induction false} TablesHaveTheirRuns(es: JointRun)
    ensures AfterJoint(es).providers == After(ProvidersRun(es))
    ensures AfterJoint(es).features == After(FeaturesRun(es))
    ensures AfterJoint(es).providers.now == AfterJoint(es).features.now
    decreases |es|
  {
    if es != [] {
      TablesHaveTheirRuns(BeforeLast(es));
      var s, e := AfterJoint(BeforeLast(es)), es[|es| - 1];
      AppendedSteps(ProvidersRun(BeforeLast(es)), ProvidersEvent(s, e));
      AppendedSteps(FeaturesRun(BeforeLast(es)), FeaturesEvent(s, e));
      ClocksAgree(s, e);
    }
  }

  lemma AppendedSteps<R>(es: Run<R>, e: Option<Event<R>>)
    ensures After(Appended(es, e)) == NextTable(After(es), e)
  {
    if e.Some? { LastStep(es, e.value); }
  }

  lemma ClocksAgree(s: Joint, e: JointEvent)
    requires s.providers.now == s.features.now
    ensures NextJoint(s, e).providers.now == NextJoint(s, e).features.now
  {
  }

  // ---------------------------------------------------------------- calls in quiet times

  ghost predicate BothSettled(es: JointRun, tenant: string) {
    Settled(ProvidersRun(es), tenant) && Settled(FeaturesRun(es), tenant)
  }

  predicate Writes(e: JointEvent, tenant: string) {
    || (e.OnProviders? && e.providersStep.Write? && e.providersStep.tenant == tenant)
    || (e.OnFeatures? && e.featuresStep.Write? && e.featuresStep.tenant == tenant)
  }

  /** The call k for the feature started when both tables were settled for its organisation, and nobody has changed that
      organisation's rows since. */
  ghost predicate Quiet(es: JointRun, k: Ticket, feature: string)
    decreases |es|
  {
    && es != []
    && var before := BeforeLast(es);
       if StartsLoads(AfterJoint(before), es[|es| - 1]) && es[|es| - 1].k == k
       then es[|es| - 1].feature == feature && BothSettled(before, k.tenant)
       else !Writes(es[|es| - 1], k.tenant) && Quiet(before, k, feature)
  }

  /** What a load has given is what the table holds. */
  ghost predicate GivenAgrees<R>(given: Option<Result<seq<R>, LoadFailure>>, s: State<R>, tenant: string) {
    given.Some? && given.value.Ok? ==> given.value.value == Rows(s.db, tenant)
  }

  ghost predicate CallAgrees(c: Call, s: Joint, tenant: string, feature: string) {
    c.feature == feature && GivenAgrees(c.providers, s.providers, tenant) && GivenAgrees(c.features, s.features, tenant)
  }

  lemma {:induction false} QuietStaysSettled(es: JointRun, k: Ticket, feature: string)
    requires Quiet(es, k, feature)
    ensures BothSettled(es, k.tenant)
    decreases |es|
  {
    var before, e := BeforeLast(es), es[|es| - 1];
    var s := AfterJoint(before);
    if !(StartsLoads(s, e) && e.k == k) { QuietStaysSettled(before, k, feature); }
    StepStaysSettled(ProvidersRun(before), ProvidersEvent(s, e), k.tenant);
    StepStaysSettled(FeaturesRun(before), FeaturesEvent(s, e), k.tenant);
  }

  lemma StepStaysSettled<R>(es: Run<R>, e: Option<Event<R>>, tenant: string)
    requires Settled(es, tenant) && !(e.Some? && e.value.Write? && e.value.tenant == tenant)
    ensures Settled(Appended(es, e), tenant)
  {
    if e.Some? { assert AiConfigCache.Before(es + [e.value]) == es; }
  }

  /** A step that changes none of the organisation's rows gives its loads what its table holds. */
  lemma StepGivesTheTable<R>(es: Run<R>, e: Event<R>, tenant: string)
    requires Settled(es, tenant) && (e.Start? || e.Finish? || e.Fail?) && e.k.tenant == tenant
    ensures GivenAgrees(Given(After(es), e), After(es), tenant)
  {
    SettledAgrees(es, tenant);
  }

  lemma GivenStays<R>(given: Option<Result<seq<R>, LoadFailure>>, s: State<R>, e: Option<Event<R>>, tenant: string)
    requires GivenAgrees(given, s, tenant) && !(e.Some? && e.value.Write? && e.value.tenant == tenant)
    ensures GivenAgrees(given, NextTable(s, e), tenant)
  {
  }

  lemma CallStays(c: Call, s: Joint, e: JointEvent, tenant: string, feature: string)
    requires CallAgrees(c, s, tenant, feature) && !Writes(e, tenant)
    ensures CallAgrees(c, NextJoint(s, e), tenant, feature)
  {
    hide Moved, GivenAgrees;
    GivenStays(c.providers, s.providers, ProvidersEvent(s, e), tenant);
    GivenStays(c.features, s.features, FeaturesEvent(s, e), tenant);
  }

  lemma {:induction false} QuietCallsAgree(es: JointRun, k: Ticket, feature: string)
    requires Quiet(es, k, feature) && k in AfterJoint(es).calls
    ensures CallAgrees(AfterJoint(es).calls[k], AfterJoint(es), k.tenant, feature)
    decreases |es|
  {
    var before, e := BeforeLast(es), es[|es| - 1];
    var s := AfterJoint(before);
    if !(StartsLoads(s, e) && e.k == k) && k in s.calls { QuietCallsAgree(before, k, feature); }
    assert es == before + [e];
    QuietStepAgrees(before, e, k, feature);
  }

  /** One step of a quiet call. */
  lemma QuietStepAgrees(es: JointRun, e: JointEvent, k: Ticket, feature: string)
    requires Quiet(es + [e], k, feature)
    requires !(StartsLoads(AfterJoint(es), e) && e.k == k) && k in AfterJoint(es).calls ==>
               CallAgrees(AfterJoint(es).calls[k], AfterJoint(es), k.tenant, feature)
    ensures var s, s' := AfterJoint(es), NextJoint(AfterJoint(es), e);
            && (Moved(s, e).Some? && Moved(s, e).value.0 == k ==>
                CallAgrees(Moved(s, e).value.1, s', k.tenant, feature))
            && (k in s'.calls ==> CallAgrees(s'.calls[k], s', k.tenant, feature))
  {
    assert BeforeLast(es + [e]) == es;
    var s := AfterJoint(es);
    if !(StartsLoads(s, e) && e.k == k) { QuietStaysSettled(es, k, feature); }
    hide AfterJoint, Quiet, BothSettled, CallAgrees;
    var moved := Moved(s, e);
    if moved.Some? && moved.value.0 == k {
      MovedAgrees(es, e, k, feature);
      CallStays(moved.value.1, s, e, k.tenant, feature);
    } else if k in s.calls {
      OtherCallsStay(s, e, k);
      CallStays(s.calls[k], s, e, k.tenant, feature);
    }
  }

  lemma OtherCallsStay(s: Joint, e: JointEvent, k: Ticket)
    requires Moved(s, e).None? || Moved(s, e).value.0 != k
    ensures k in NextJoint(s, e).calls <==> k in s.calls
    ensures k in s.calls ==> NextJoint(s, e).calls[k] == s.calls[k]
  {
  }

  lemma MovedAgrees(es: JointRun, e: JointEvent, k: Ticket, feature: string)
    requires StartsLoads(AfterJoint(es), e) && e.k == k ==> e.feature == feature
    requires BothSettled(es, k.tenant) && Moved(AfterJoint(es), e).Some? && Moved(AfterJoint(es), e).value.0 == k
    requires !(StartsLoads(AfterJoint(es), e) && e.k == k) && k in AfterJoint(es).calls ==>
               CallAgrees(AfterJoint(es).calls[k], AfterJoint(es), k.tenant, feature)
    ensures CallAgrees(Moved(AfterJoint(es), e).value.1, AfterJoint(es), k.tenant, feature)
  {
    TablesHaveTheirRuns(es);
    hide AfterJoint, Settled, Given, GivenAgrees;
    match e
    case CallStarts(_, _, _) =>
      StepGivesTheTable(ProvidersRun(es), Start(k), k.tenant);
      StepGivesTheTable(FeaturesRun(es), Start(k), k.tenant);
    case OnProviders(step) => StepGivesTheTable(ProvidersRun(es), step, k.tenant);
    case OnFeatures(step) => StepGivesTheTable(FeaturesRun(es), step, k.tenant);
  }

  // ---------------------------------------------------------------- what resolveOrgAI returns

  /** The rows of the table, or none where the load failed. */
  function RowsUnlessFailed<R>(given: Result<seq<R>, LoadFailure>, rows: seq<R>): seq<R> {
    if given.Ok? then rows else []
  }

  /** A call that starts settled, and ends before anybody changes its organisation's rows again, returns the resolution
      of the rows both tables hold at its end; a table whose load failed counts as empty. */
  lemma ResolveOrgAIAgrees(es: JointRun, e: JointEvent, k: Ticket, feature: string, op: Operator)
    requires Quiet(es + [e], k, feature)
    requires Moved(AfterJoint(es), e).Some? && Moved(AfterJoint(es), e).value.0 == k
        && Complete(Moved(AfterJoint(es), e).value.1)
    ensures var c, end := Moved(AfterJoint(es), e).value.1, AfterJoint(es + [e]);
            && Returned(op, AfterJoint(es), e) == Some(ResolveRows(op, feature,
                 RowsUnlessFailed(c.providers.value, Rows(end.providers.db, k.tenant)),
                 RowsUnlessFailed(c.features.value, Rows(end.features.db, k.tenant))))
            && k !in end.calls
  {
    assert BeforeLast(es + [e]) == es;
    if !(StartsLoads(AfterJoint(es), e) && e.k == k) && k in AfterJoint(es).calls { QuietCallsAgree(es, k, feature); }
    QuietStepAgrees(es, e, k, feature);
    hide Quiet, Given, ResolveRows;
  }

  /** An override answers at once, and no load is started. */
  lemma OverrideAnswersAtOnce(s: Joint, k: Ticket, feature: string, managed: Resolved, op: Operator)
    requires k !in s.calls
    ensures Returned(op, s, CallStarts(k, feature, Some(managed))) == Some(Ok(managed))
    ensures NextJoint(s, CallStarts(k, feature, Some(managed))) == s
  {
  }

  /** A call that finds nothing cached reads both tables and returns the resolution of what it read. */
  lemma CallReturnsWhatItRead(s: Joint, k: Ticket, feature: string, op: Operator)
    requires k !in s.calls && k !in s.providers.loads && k !in s.features.loads
    requires Hit(s.providers.cache, k.tenant, s.providers.now).None?
    requires Hit(s.features.cache, k.tenant, s.features.now).None?
    ensures var s1 := NextJoint(s, CallStarts(k, feature, None));
            var s2 := NextJoint(s1, OnProviders(Read(k)));
            var s3 := NextJoint(s2, OnFeatures(Read(k)));
            var s4 := NextJoint(s3, OnProviders(Finish(k)));
            && Returned(op, s, CallStarts(k, feature, None)) == None && Returned(op, s3, OnProviders(Finish(k))) == None
            && Returned(op, s4, OnFeatures(Finish(k)))
               == Some(ResolveRows(op, feature, Rows(s.providers.db, k.tenant), Rows(s.features.db, k.tenant)))
            && Returned(op, s4, OnFeatures(Fail(k)))
               == Some(ResolveRows(op, feature, Rows(s.providers.db, k.tenant), []))
  {
    LoadReturnsWhatItRead(s.providers, k);
    LoadReturnsWhatItRead(s.features, k);
    hide ResolveRows, AiConfigCache.Next, AiConfigCache.Answer, Hit;
    CallStartsBoth(s, k, feature);
    var s1 := NextJoint(s, CallStarts(k, feature, None));
    var s2 := NextJoint(s1, OnProviders(Read(k)));
    var s3 := NextJoint(s2, OnFeatures(Read(k)));
    ReadsMoveNoCall(s1, k);
    ReadsMoveNoCall(s2, k);
    var s4 := NextJoint(s3, OnProviders(Finish(k)));
    assert s4.calls[k] == Call(feature, Some(Ok(Rows(s.providers.db, k.tenant))), None);
    hide NextJoint, ProvidersEvent, FeaturesEvent;
    SecondLoadCompletes(s4, k, feature, Rows(s.providers.db, k.tenant), op);
  }

  lemma SecondLoadCompletes(s: Joint, k: Ticket, feature: string, ps: seq<ProviderRow>, op: Operator)
    requires k in s.calls && s.calls[k] == Call(feature, Some(Ok(ps)), None) && k in s.features.loads
    ensures AiConfigCache.Answer(s.features, Finish(k)).Some? ==>
              Returned(op, s, OnFeatures(Finish(k)))
              == Some(ResolveRows(op, feature, ps, AiConfigCache.Answer(s.features, Finish(k)).value))
    ensures Returned(op, s, OnFeatures(Fail(k))) == Some(ResolveRows(op, feature, ps, []))
  {
    hide ResolveRows, AiConfigCache.Answer;
  }

  lemma CallStartsBoth(s: Joint, k: Ticket, feature: string)
    requires k !in s.calls
    requires AiConfigCache.Answer(s.providers, Start(k)).None? && AiConfigCache.Answer(s.features, Start(k)).None?
    ensures NextJoint(s, CallStarts(k, feature, None))
         == Joint(AiConfigCache.Next(s.providers, Start(k)), AiConfigCache.Next(s.features, Start(k)),
                  s.calls[k := Call(feature, None, None)])
  {
  }

  lemma ReadsMoveNoCall(s: Joint, k: Ticket)
    ensures NextJoint(s, OnProviders(Read(k))) == s.(providers := AiConfigCache.Next(s.providers, Read(k)))
    ensures NextJoint(s, OnFeatures(Read(k))) == s.(features := AiConfigCache.Next(s.features, Read(k)))
  {
  }
}
