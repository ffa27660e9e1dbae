/**
 Whole runs of the bus: what the subscribers are promised across outages, retries and shutdown.
 */
module ListenerRuns {
  import opened Wrappers
  import opened ListenerProtocol

  /** The program together with what it cannot see.
      `wire` holds the tenants of the changes sent to the live installed client and not yet delivered.
      `owed` holds the registered subscriptions not called since some change of their tenant. */
  datatype World = World(s: State, dead: set<ClientId>, wire: seq<Tenant>, owed: set<Subscription>)

  const START := World(INITIAL, {}, [], {})

  ghost function Subscriptions(subs: map<Tenant, set<Handler>>): set<Subscription> {
    set t, h | t in subs && h in subs[t] :: (t, h)
  }

  ghost function SubscriptionsOf(subs: map<Tenant, set<Handler>>, t: Tenant): set<Subscription> {
    set h | t in subs && h in subs[t] :: (t, h)
  }

  /** Which subscriptions a notification reaches. A notification without an organisation id reaches nobody, and the
      empty id counts as none. */
  ghost function ReachedBy(subs: map<Tenant, set<Handler>>, t: Tenant): set<Subscription> {
    if t == "" then {} else SubscriptionsOf(subs, t)
  }

  /** A client is installed and its connection still LISTENs. */
  predicate Live(w: World) {
    w.s.installed.Some? && w.s.installed.value !in w.dead
  }

  predicate CanHappen(w: World, e: Event) {
    Enabled(w.s, e) && (e.DeliverNext? ==> w.wire != [])
  }

  /** Which subscriptions the event's segment calls; `PgListener` proves that these are the calls made. */
  ghost function Called(w: World, e: Event): set<Subscription>
    requires CanHappen(w, e)
  {
    match e
    case BroadcastReconnect => Subscriptions(w.s.subs)
    case DeliverNext => ReachedBy(w.s.subs, w.wire[0])
    case DeliverStray(t) => ReachedBy(w.s.subs, t)
    case _ => {}
  }

  /** Changes before the first successful LISTEN are not the bus's business. */
  ghost function NewlyOwed(w: World, e: Event): set<Subscription> {
    if e.Change? && w.s.listened then SubscriptionsOf(w.s.subs, e.tenant) else {}
  }

  function NextWire(w: World, e: Event, s': State): seq<Tenant>
    requires CanHappen(w, e)
  {
    match e
    case DeliverNext => w.wire[1..]
    case Die(c) => if w.s.installed == Some(c) then [] else w.wire
    case Change(t) => if Live(w) then w.wire + [t] else w.wire
    case _ => if s'.installed != w.s.installed then [] else w.wire
  }

  ghost function Next(w: World, e: Event): World
    requires CanHappen(w, e)
  {
    var s' := Step(w.s, e);
    World(s',
          if e.Die? then w.dead + {e.client} else w.dead,
          NextWire(w, e, s'),
          ((w.owed - Called(w, e)) + NewlyOwed(w, e)) * Subscriptions(s'.subs))
  }

  // ---------------------------------------------------------------- gap healing

  /** Something already under way ends in a reconnect broadcast. A dead installed client counts,
      because its heartbeat is armed and will find it out. */
  predicate Pending(w: World) {
    HealPending(w.s) || (w.s.installed.Some? && w.s.installed.value in w.dead && w.s.heartbeat)
  }

  ghost predicate Accounted(w: World) {
    forall p <- w.owed :: p.0 == "" || p.0 in w.wire || Pending(w)
  }

  ghost predicate WorldInv(w: World) {
    && Inv(w.s)
    && (forall c <- w.dead :: c < w.s.created)
    && (w.wire != [] ==> Live(w))
    && (!w.s.shutdown ==> Accounted(w))
  }

  /** A broadcast that runs while the installed client LISTENs. */
  predicate HealingBroadcast(w: World, e: Event) {
    e.BroadcastReconnect? && Live(w)
  }

  lemma PendingPersists(w: World, e: Event)
    requires WorldInv(w) && CanHappen(w, e) && Pending(w) && !Next(w, e).s.shutdown
    requires !HealingBroadcast(w, e)
    ensures Pending(Next(w, e))
  {
  }

  lemma StepKeepsWorldInv(w: World, e: Event)
    requires WorldInv(w) && CanHappen(w, e)
    ensures WorldInv(Next(w, e))
  {
    StepKeepsInv(w.s, e);
    var w' := Next(w, e);
    if !w'.s.shutdown {
      forall p <- w'.owed ensures p.0 == "" || p.0 in w'.wire || Pending(w') {
        if p in NewlyOwed(w, e) {
          assert p.0 == e.tenant;
          if Live(w) { assert w'.wire[|w.wire|] == p.0; }
        } else if p.0 != "" {
          OldDebtStaysAccounted(w, e, p);
        }
      }
    }
  }

  lemma OldDebtStaysAccounted(w: World, e: Event, p: Subscription)
    requires WorldInv(w) && CanHappen(w, e) && !Next(w, e).s.shutdown
    requires p in w.owed && p in Next(w, e).owed && p !in Called(w, e) && p.0 != ""
    ensures p.0 in Next(w, e).wire || Pending(Next(w, e))
  {
    var w' := Next(w, e);
    if Pending(w) {
      if !HealingBroadcast(w, e) { PendingPersists(w, e); }
    } else {
      var i :| 0 <= i < |w.wire| && w.wire[i] == p.0;
      match e
      case DeliverNext =>
        assert p in Subscriptions(w.s.subs);
        assert i != 0;
        assert w'.wire[i - 1] == p.0;
      case Change(t) => assert w'.wire[i] == p.0;
      case _ =>
    }
  }

  // ---------------------------------------------------------------- runs

  ghost predicate IsRun(w: World, es: seq<Event>)
    decreases |es|
  {
    es == [] || (CanHappen(w, es[0]) && IsRun(Next(w, es[0]), es[1..]))
  }

  ghost function After(w: World, es: seq<Event>): World
    requires IsRun(w, es)
    decreases |es|
  {
    if es == [] then w else After(Next(w, es[0]), es[1..])
  }

  lemma {:induction false} RunKeepsInv(w: World, es: seq<Event>)
    requires WorldInv(w) && IsRun(w, es)
    ensures WorldInv(After(w, es))
    decreases |es|
  {
    if es != [] {
      StepKeepsWorldInv(w, es[0]);
      RunKeepsInv(Next(w, es[0]), es[1..]);
    }
  }

  /** At the end of the run, before shutdown, the subscription has not been called since a change of its tenant. */
  ghost predicate IsOwed(es: seq<Event>, p: Subscription) {
    IsRun(START, es) && !After(START, es).s.shutdown && p in After(START, es).owed
  }

  ghost predicate IsAccountedFor(es: seq<Event>, p: Subscription)
    requires IsRun(START, es)
  {
    var w := After(START, es);
    (p.0 in w.wire && Live(w)) || Pending(w)
  }

  /** In every run from process start and before shutdown, a subscription that has not been called since
      a change of its tenant finds that change on the wire of the live client, or a healing
      broadcast is pending. */
  lemma GapsAreAccountedFor(es: seq<Event>, p: Subscription)
    requires IsOwed(es, p) && p.0 != ""
    ensures IsAccountedFor(es, p)
  {
    RunKeepsInv(START, es);
  }

  function EmptyTenantRun(h: Handler): seq<Event> {
    [Subscribe("", h)] + ([ConnectSucceeds] + ([OwnerResumes] + ([Change("")] + ([DeliverNext] + []))))
  }

  /** The empty tenant is the exception: nothing is wrong with the connection, and yet its notification calls nobody. */
  lemma EmptyTenantIsNotAccountedFor(h: Handler)
    ensures IsOwed(EmptyTenantRun(h), ("", h)) && !IsAccountedFor(EmptyTenantRun(h), ("", h))
  {
    var w3 := QuietStart("", h, [Change("")] + ([DeliverNext] + []));
    ChangeOwes(w3, "", h);
    var w4 := Next(w3, Change(""));
    EmptyDeliveryCallsNobody(w4, h);
    var w5 := Next(w4, DeliverNext);
    hide Step, Next, CanHappen, Subscriptions, SubscriptionsOf;
    EmptyRun(w5);
    Prefixed(w4, DeliverNext, []);
    Prefixed(w3, Change(""), [DeliverNext] + []);
  }

  /** A first subscription whose connect succeeds. */
  lemma QuietStart(t: Tenant, h: Handler, es: seq<Event>) returns (w: World)
    ensures Live(w) && w.s.listened && !w.s.shutdown && w.wire == [] && !Pending(w) && t in w.s.subs && h in w.s.subs[t]
    ensures var all := [Subscribe(t, h)] + ([ConnectSucceeds] + ([OwnerResumes] + es));
            IsRun(w, es) ==> IsRun(START, all) && After(START, all) == After(w, es)
  {
    QuietWorld(t, h);
    var w1 := Next(START, Subscribe(t, h));
    var w2 := Next(w1, ConnectSucceeds);
    w := Next(w2, OwnerResumes);
    hide IsRun, After, Next, CanHappen, Pending;
    if IsRun(w, es) {
      Prefixed(w2, OwnerResumes, es);
      Prefixed(w1, ConnectSucceeds, [OwnerResumes] + es);
      Prefixed(START, Subscribe(t, h), [ConnectSucceeds] + ([OwnerResumes] + es));
    }
  }

  lemma QuietWorld(t: Tenant, h: Handler)
    ensures CanHappen(START, Subscribe(t, h))
    ensures var w1 := Next(START, Subscribe(t, h));
            && CanHappen(w1, ConnectSucceeds) && CanHappen(Next(w1, ConnectSucceeds), OwnerResumes)
            && var w := Next(Next(w1, ConnectSucceeds), OwnerResumes);
               Live(w) && w.s.listened && !w.s.shutdown && w.wire == [] && !Pending(w) && t in w.s.subs
                   && h in w.s.subs[t]
  {
    hide Subscriptions;
    var w1 := Next(START, Subscribe(t, h));
    var w2 := Next(w1, ConnectSucceeds);
    assert w1.wire == [] && w2.wire == [];
  }

  lemma ChangeOwes(w: World, t: Tenant, h: Handler)
    requires Live(w) && w.s.listened && t in w.s.subs && h in w.s.subs[t]
    ensures CanHappen(w, Change(t))
    ensures var w' := Next(w, Change(t));
            w'.s == w.s && w'.dead == w.dead && w'.wire == w.wire + [t] && (t, h) in w'.owed
  {
    assert (t, h) in SubscriptionsOf(w.s.subs, t) && (t, h) in Subscriptions(w.s.subs);
  }

  lemma EmptyDeliveryCallsNobody(w: World, h: Handler)
    requires w.wire == [""] && ("", h) in w.owed && "" in w.s.subs && h in w.s.subs[""]
    ensures CanHappen(w, DeliverNext)
    ensures var w' := Next(w, DeliverNext); w'.s == w.s && w'.dead == w.dead && w'.wire == [] && ("", h) in w'.owed
  {
    assert ("", h) in Subscriptions(w.s.subs);
  }

  lemma EmptyRun(w: World)
    ensures IsRun(w, []) && After(w, []) == w
  {
  }

  lemma Prefixed(w: World, e: Event, es: seq<Event>)
    requires CanHappen(w, e) && IsRun(Next(w, e), es)
    ensures IsRun(w, [e] + es) && After(w, [e] + es) == After(Next(w, e), es)
  {
    assert ([e] + es)[1..] == es;
  }

  /** The exact condition: every gap of a subscription is accounted for, in all runs, if and only if its tenant
      is not empty. */
  lemma AccountedForIffNamed(p: Subscription)
    ensures (forall es :: IsOwed(es, p) ==> IsAccountedFor(es, p)) <==> p.0 != ""
  {
    if p.0 == "" {
      EmptyTenantIsNotAccountedFor(p.1);
    } else {
      forall es | IsOwed(es, p) ensures IsAccountedFor(es, p) { GapsAreAccountedFor(es, p); }
    }
  }

  ghost predicate HealedDuring(w: World, es: seq<Event>)
    requires IsRun(w, es)
    decreases |es|
  {
    es != [] && (HealingBroadcast(w, es[0]) || HealedDuring(Next(w, es[0]), es[1..]))
  }

  /** Once pending, healing stays pending until a broadcast runs with a LISTENing client. */
  lemma {:induction false} PendingUntilHealed(w: World, es: seq<Event>)
    requires WorldInv(w) && IsRun(w, es) && Pending(w) && !After(w, es).s.shutdown
    ensures Pending(After(w, es)) || HealedDuring(w, es)
    decreases |es|
  {
    if es != [] && !HealingBroadcast(w, es[0]) {
      var w', rest := Next(w, es[0]), es[1..];
      if w'.s.shutdown { ShutdownIsForever(w', rest); }
      PendingPersists(w, es[0]);
      StepKeepsWorldInv(w, es[0]);
      PendingUntilHealed(w', rest);
    }
  }

  lemma {:induction false} ShutdownIsForever(w: World, es: seq<Event>)
    requires IsRun(w, es) && w.s.shutdown
    ensures After(w, es).s.shutdown
    decreases |es|
  {
    if es != [] {
      NoTimerAfterShutdown(w.s, es[0]);
      hide Step;
      ShutdownIsForever(Next(w, es[0]), es[1..]);
    }
  }

  /** The healing broadcast calls every registered subscription: nobody is owed anything afterwards. */
  lemma BroadcastPaysEveryDebt(w: World)
    requires CanHappen(w, BroadcastReconnect)
    ensures Next(w, BroadcastReconnect).owed == {}
    ensures Called(w, BroadcastReconnect) == Subscriptions(w.s.subs)
  {
  }

  // ---------------------------------------------------------------- healing is always within reach

  /** What happens without any API call: timers, heartbeats and the settling of promises. */
  predicate Internal(e: Event) {
    e.ConnectSucceeds? || e.ConnectFails? || e.OwnerResumes? || e.EndSettles? || e.HeartbeatTicks?
    || e.ProbeSettles? || e.TimerFires? || e.BroadcastReconnect?
  }

  ghost predicate Heals(w: World, es: seq<Event>) {
    && (forall e <- es :: Internal(e))
    && IsRun(w, es)
    && HealedDuring(w, es)
    && After(w, es).owed == {}
    && Live(After(w, es))
  }

  lemma Prepend(w: World, e: Event, es: seq<Event>)
    requires CanHappen(w, e) && Internal(e) && Heals(Next(w, e), es)
    ensures Heals(w, [e] + es)
  {
    assert ([e] + es)[1..] == es;
    assert forall x <- [e] + es :: x == e || x in es;
  }

  lemma HealByBroadcast(w: World) returns (es: seq<Event>)
    requires Live(w) && w.s.ready > 0
    ensures Heals(w, es) && |es| == 1
  {
    es := [BroadcastReconnect];
    BroadcastPaysEveryDebt(w);
    assert es[1..] == [];
    assert After(w, es) == Next(w, BroadcastReconnect);
  }

  lemma HealByTimer(w: World) returns (es: seq<Event>)
    requires WorldInv(w) && w.s.connecting.Idle? && (w.s.installed.Some? ==> Live(w)) && w.s.timers != []
    ensures Heals(w, es) && |es| <= 4
  {
    var w1 := Next(w, TimerFires(0));
    if Live(w) {
      es := HealByBroadcast(w1);
    } else {
      var w2 := Next(w1, ConnectSucceeds);
      var w3 := Next(w2, OwnerResumes);
      es := HealByBroadcast(w3);
      Prepend(w2, OwnerResumes, es);
      Prepend(w1, ConnectSucceeds, [OwnerResumes] + es);
      es := [ConnectSucceeds] + ([OwnerResumes] + es);
    }
    Prepend(w, TimerFires(0), es);
    es := [TimerFires(0)] + es;
  }

  lemma HealWhenIdle(w: World) returns (es: seq<Event>)
    requires WorldInv(w) && !w.s.shutdown && Pending(w)
    requires w.s.connecting.Idle? && (w.s.installed.Some? ==> Live(w))
    ensures Heals(w, es) && |es| <= 5
  {
    if w.s.timers != [] {
      es := HealByTimer(w);
    } else if Live(w) && w.s.ready > 0 {
      es := HealByBroadcast(w);
    } else {
      var c :| c in w.s.teardowns;
      var w1 := Next(w, EndSettles(c));
      StepKeepsWorldInv(w, EndSettles(c));
      es := HealByTimer(w1);
      Prepend(w, EndSettles(c), es);
      es := [EndSettles(c)] + es;
    }
  }

  /** A dead client is found out by one heartbeat. */
  lemma HealDeadClient(w: World) returns (es: seq<Event>)
    requires WorldInv(w) && !w.s.shutdown && Pending(w) && w.s.connecting.Idle?
    ensures Heals(w, es) && |es| <= 7
  {
    if w.s.installed.None? || Live(w) {
      es := HealWhenIdle(w);
    } else {
      var fails := ProbeSettles(w.s.installed.value, false);
      var w1 := Next(w, HeartbeatTicks);
      var w2 := Next(w1, fails);
      StepKeepsWorldInv(w, HeartbeatTicks);
      StepKeepsWorldInv(w1, fails);
      es := HealWhenIdle(w2);
      Prepend(w1, fails, es);
      Prepend(w, HeartbeatTicks, [fails] + es);
      es := [HeartbeatTicks] + ([fails] + es);
    }
  }

  lemma HealAfterSettling(w: World) returns (es: seq<Event>)
    requires WorldInv(w) && !w.s.shutdown && Pending(w) && (w.s.connecting.Resolved? || w.s.connecting.Rejected?)
    ensures Heals(w, es) && |es| <= 8
  {
    PendingPersists(w, OwnerResumes);
    StepKeepsWorldInv(w, OwnerResumes);
    es := HealDeadClient(Next(w, OwnerResumes));
    Prepend(w, OwnerResumes, es);
    es := [OwnerResumes] + es;
  }

  /** From every reachable pending state before shutdown, at most nine internal events, with a network
      that lets one new connect through, end in a healing broadcast that pays every debt. */
  lemma HealingIsWithinReach(w: World) returns (es: seq<Event>)
    requires WorldInv(w) && !w.s.shutdown && Pending(w)
    ensures Heals(w, es) && |es| <= 9
  {
    match w.s.connecting
    case Idle => es := HealDeadClient(w);
    case InFlight(_, _, _) =>
      StepKeepsWorldInv(w, ConnectFails);
      es := HealAfterSettling(Next(w, ConnectFails));
      Prepend(w, ConnectFails, es);
      es := [ConnectFails] + es;
    case _ => es := HealAfterSettling(w);
  }

  // ---------------------------------------------------------------- retries are neither lost nor doubled

  function TimersFired(es: seq<Event>): nat {
    if es == [] then 0 else Fires(es[0]) + TimersFired(es[1..])
  }

  function RetriesEarned(es: seq<Event>): nat {
    if es == [] then 0 else Earns(es[0]) + RetriesEarned(es[1..])
  }

  function RetriesHeld(s: State): nat {
    |s.timers| + if s.connecting.Rejected? then 1 else 0
  }

  function Fires(e: Event): nat { if e.TimerFires? then 1 else 0 }

  function Earns(e: Event): nat { if e.ConnectFails? || e.EndSettles? then 1 else 0 }

  lemma StepConservesRetries(s: State, e: Event)
    requires Enabled(s, e) && !Step(s, e).shutdown
    ensures RetriesHeld(Step(s, e)) + Fires(e) == RetriesHeld(s) + Earns(e)
  {
  }

  /** Each failed connect and each finished teardown schedules exactly one timer, however many callers
      wait for the connect, and nothing else schedules any. */
  lemma {:induction false} RetriesAreConserved(w: World, es: seq<Event>)
    requires IsRun(w, es) && !After(w, es).s.shutdown
    ensures RetriesHeld(After(w, es).s) + TimersFired(es) == RetriesHeld(w.s) + RetriesEarned(es)
    decreases |es|
  {
    if es != [] {
      var w' := Next(w, es[0]);
      if w'.s.shutdown { ShutdownIsForever(w', es[1..]); }
      RetriesAreConserved(w', es[1..]);
      StepConservesRetries(w.s, es[0]);
    }
  }

  // ---------------------------------------------------------------- shutdown

  function ConnectWeight(c: Connecting): nat {
    match c
    case Idle => 0
    case InFlight(_, _, waiters) => 5 + 2 * waiters
    case Resolved(_, _) => 2
    case Rejected(_) => 1
  }

  function Remaining(s: State): nat {
    6 * |s.timers| + ConnectWeight(s.connecting) + s.ready + (if s.installed.Some? then 2 else 0) + |s.teardowns|
  }

  /** The event changes the work the bus has under way; a heartbeat that finds its client well does not. */
  predicate Progresses(s: State, e: Event)
    requires Enabled(s, e)
  {
    var s' := Step(s, e);
    s'.timers != s.timers || s'.connecting != s.connecting || s'.ready != s.ready
    || s'.installed != s.installed || s'.teardowns != s.teardowns
  }

  predicate IsApiCall(e: Event) {
    e.Subscribe? || e.Unsubscribe? || e.Notify? || e.Shutdown?
  }

  ghost function ProgressCount(w: World, es: seq<Event>): nat
    requires IsRun(w, es)
    decreases |es|
  {
    if es == [] then 0 else (if Progresses(w.s, es[0]) then 1 else 0) + ProgressCount(Next(w, es[0]), es[1..])
  }

  lemma NoTimerAfterShutdown(s: State, e: Event)
    requires Enabled(s, e) && s.shutdown
    ensures Step(s, e).shutdown && |Step(s, e).timers| <= |s.timers|
  {
  }

  lemma StepUsesUpWork(s: State, e: Event)
    requires Inv(s) && Enabled(s, e) && s.shutdown && !IsApiCall(e)
    ensures Remaining(Step(s, e)) <= Remaining(s) - (if Progresses(s, e) then 1 else 0)
  {
    match e
    case ConnectSucceeds => SettlingUsesUpWork(s, e);
    case ConnectFails => SettlingUsesUpWork(s, e);
    case OwnerResumes => SettlingUsesUpWork(s, e);
    case ClientErrors(c) => TeardownUsesUpWork(s, c);
    case ProbeSettles(c, ok) => TeardownUsesUpWork(s.(probes := s.probes - multiset{c}), c);
    case EndSettles(c) => assert |s.teardowns - {c}| == |s.teardowns| - 1;
    case TimerFires(i) => TimerUsesUpWork(s, i);
    case _ =>
  }

  lemma SettlingUsesUpWork(s: State, e: Event)
    requires Inv(s) && Enabled(s, e) && s.shutdown
    requires e.ConnectSucceeds? || e.ConnectFails? || e.OwnerResumes?
    ensures Remaining(Step(s, e)) < Remaining(s)
  {
  }

  lemma TimerUsesUpWork(s: State, i: nat)
    requires Enabled(s, TimerFires(i))
    ensures Remaining(Step(s, TimerFires(i))) < Remaining(s)
  {
    var s1 := s.(timers := s.timers[..i] + s.timers[i + 1..]);
    assert |s1.timers| == |s.timers| - 1;
    assert Remaining(EnsureClient(s1, TimerCallback)) <= Remaining(s1) + 5;
  }

  lemma TeardownUsesUpWork(s: State, c: ClientId)
    ensures Remaining(Teardown(s, c)) <= Remaining(s) - (if s.installed == Some(c) then 1 else 0)
  {
    assert |s.teardowns + {c}| <= |s.teardowns| + 1;
  }

  /** After shutdown no reconnect timer is created again, whatever happens, and without API calls only as
      many events as `Remaining` counts can still change anything, even when a connect in flight
      installs its client late. */
  lemma {:induction false} ShutdownQuiesces(w: World, es: seq<Event>)
    requires Inv(w.s) && IsRun(w, es) && w.s.shutdown
    ensures |After(w, es).s.timers| <= |w.s.timers|
    ensures (forall e <- es :: !IsApiCall(e)) ==> ProgressCount(w, es) + Remaining(After(w, es).s) <= Remaining(w.s)
    decreases |es|
  {
    if es != [] {
      NoTimerAfterShutdown(w.s, es[0]);
      if !IsApiCall(es[0]) { StepUsesUpWork(w.s, es[0]); }
      StepKeepsInv(w.s, es[0]);
      ShutdownQuiesces(Next(w, es[0]), es[1..]);
    }
  }

  // ---------------------------------------------------------------- registrations

  ghost function Register(live: set<Subscription>, e: Event): set<Subscription> {
    match e
    case Subscribe(t, h) => live + {(t, h)}
    case Unsubscribe(t, h) => live - {(t, h)}
    case Shutdown => {}
    case _ => live
  }

  ghost function Registered(live: set<Subscription>, es: seq<Event>): set<Subscription>
    decreases |es|
  {
    if es == [] then live else Registered(Register(live, es[0]), es[1..])
  }

  lemma StepRegisters(s: State, e: Event)
    requires Enabled(s, e)
    ensures Subscriptions(Step(s, e).subs) == Register(Subscriptions(s.subs), e)
  {
    match e
    case Subscribe(t, h) => AddAddsOne(s.subs, t, h);
    case Unsubscribe(t, h) => DropRemovesOne(s.subs, t, h);
    case _ =>
  }

  /** The map of sets holds exactly the live registrations, under repeated subscribes and unsubscribes. */
  lemma {:induction false} MapHoldsTheRegistrations(w: World, es: seq<Event>)
    requires IsRun(w, es)
    ensures Subscriptions(After(w, es).s.subs) == Registered(Subscriptions(w.s.subs), es)
    decreases |es|
  {
    if es != [] {
      StepRegisters(w.s, es[0]);
      MapHoldsTheRegistrations(Next(w, es[0]), es[1..]);
    }
  }

  lemma AddAddsOne(subs: map<Tenant, set<Handler>>, t: Tenant, h: Handler)
    ensures Subscriptions(AddSubscriber(subs, t, h)) == Subscriptions(subs) + {(t, h)}
  {
  }

  lemma DropRemovesOne(subs: map<Tenant, set<Handler>>, t: Tenant, h: Handler)
    ensures Subscriptions(DropSubscriber(subs, t, h)) == Subscriptions(subs) - {(t, h)}
  {
    var subs' := DropSubscriber(subs, t, h);
    forall p: Subscription ensures p in Subscriptions(subs') <==> p in Subscriptions(subs) - {(t, h)} {
      if t in subs && p.0 == t && p.1 in subs[t] && p.1 != h { assert p.1 in subs[t] - {h}; }
    }
  }

  /** end() is called at most once on each client, and never on the one installed now. */
  lemma EndedAtMostOnce(es: seq<Event>, i: nat, j: nat)
    requires IsRun(START, es) && i < j < |After(START, es).s.endLog|
    ensures var s := After(START, es).s;
            s.endLog[i] != s.endLog[j] && s.installed != Some(s.endLog[i]) && s.installed != Some(s.endLog[j])
  {
    RunKeepsInv(START, es);
  }

  /** A late event of an older client leaves the bus as it is. */
  lemma OlderClientsAreHarmless(s: State, c: ClientId)
    requires s.installed != Some(c)
    ensures Step(s, ClientErrors(c)) == s && Step(s, ClientEnds(c)) == s
    ensures c in s.probes ==> Step(s, ProbeSettles(c, false)) == s.(probes := s.probes - multiset{c})
  {
  }

  /** Installing a client never replaces another one, and the heartbeat is armed exactly while
      a client is installed. */
  lemma InstallsAreExclusive(es: seq<Event>)
    requires IsRun(START, es)
    ensures var s := After(START, es).s;
            && (s.connecting.InFlight? ==> s.installed.None? && s.connecting.client !in s.endLog)
            && (s.heartbeat <==> s.installed.Some?)
  {
    RunKeepsInv(START, es);
  }

  /** After the first subscribe or notify and before shutdown there is always a client, a connect,
      a teardown or a timer. */
  lemma TheBusIsNeverStuck(es: seq<Event>)
    requires IsRun(START, es) && !After(START, es).s.shutdown
    requires exists e <- es :: e.Subscribe? || e.Notify?
    ensures var s := After(START, es).s;
            s.installed.Some? || !s.connecting.Idle? || s.teardowns != {} || |s.timers| > 0
  {
    RunKeepsInv(START, es);
    FirstCallCreatesAClient(START, es);
  }

  lemma StepRemembersCalls(s: State, e: Event)
    requires Inv(s) && Enabled(s, e)
    ensures s.created > 0 || e.Subscribe? || e.Notify? ==> Step(s, e).created > 0
  {
  }

  lemma {:induction false} FirstCallCreatesAClient(w: World, es: seq<Event>)
    requires WorldInv(w) && IsRun(w, es)
    requires w.s.created > 0 || exists e <- es :: e.Subscribe? || e.Notify?
    ensures After(w, es).s.created > 0
    decreases |es|
  {
    if es != [] {
      StepKeepsWorldInv(w, es[0]);
      assert forall e <- es :: e == es[0] || e in es[1..];
      StepRemembersCalls(w.s, es[0]);
      hide Step;
      FirstCallCreatesAClient(Next(w, es[0]), es[1..]);
    }
  }
}
