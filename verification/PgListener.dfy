/**
 The listener as the source writes it: module state that every function updates, one method per
 segment between two awaits. Each method is proved against `ListenerProtocol.Step`, about which
 `ListenerRuns` proves what whole runs keep.
 */
module PgListener {
  import opened Wrappers
  import opened ListenerProtocol
  import opened ListenerRuns
  import opened ListenerSteps

  const CHANNEL := "proposal_changed"

  type Reason = string

  /** What JSON.parse makes of the payload. A field that is absent or not a string is None. */
  datatype Payload =
    | Missing
    | Malformed
    | JsonNull
    | Fields(orgId: Option<string>, reason: Option<string>)

  datatype Message = Message(channel: string, payload: Payload)

  /** A handler was called with this reason because of this registration. */
  datatype Call = Call(tenant: Tenant, handler: Handler, reason: Reason)

  predicate IsReason(value: string) {
    value == "created" || value == "accepted" || value == "rejected" || value == "reconnect"
  }

  /** A known reason is passed on; anything else counts as "created". */
  function ReasonOf(reason: Option<string>): (r: Reason)
    ensures r in ["created", "accepted", "rejected", "reconnect"]
    ensures if reason.Some? && reason.value in ["created", "accepted", "rejected", "reconnect"]
            then r == reason.value else r == "created"
  {
    if reason == Some("accepted") || reason == Some("rejected") || reason == Some("reconnect") then reason.value
    else "created"
  }

  ghost function CallsTo(subscriptions: set<Subscription>, reason: Reason): set<Call> {
    set p | p in subscriptions :: Call(p.0, p.1, reason)
  }

  /** Which calls a message asks for, said of the registrations and not of the map that stores them. */
  ghost function CallsFor(subscriptions: set<Subscription>, msg: Message): set<Call> {
    if msg.channel == CHANNEL && msg.payload.Fields? && msg.payload.orgId.Some? && msg.payload.orgId.value != "" then
      CallsTo((set p | p in subscriptions && p.0 == msg.payload.orgId.value), ReasonOf(msg.payload.reason))
    else {}
  }

  ghost function CallsIn(t: Tenant, handlers: set<Handler>, reason: Reason): set<Call> {
    set h | h in handlers :: Call(t, h, reason)
  }

  lemma CallsOfOneTenant(subs: map<Tenant, set<Handler>>, t: Tenant, reason: Reason)
    requires t in subs
    ensures CallsTo((set p | p in Subscriptions(subs) && p.0 == t), reason) == CallsIn(t, subs[t], reason)
  {
    forall c: Call
      ensures c in CallsTo((set p | p in Subscriptions(subs) && p.0 == t), reason) <==> c in CallsIn(t, subs[t], reason)
    {
      assert (t, c.handler) in Subscriptions(subs) <==> c.handler in subs[t];
    }
  }

  lemma CallsSplitByTenant(subs: map<Tenant, set<Handler>>, rest: set<Tenant>, t: Tenant, reason: Reason)
    requires t in rest && t in subs
    ensures CallsTo(Subscriptions(subs - (rest - {t})), reason)
         == CallsTo(Subscriptions(subs - rest), reason) + CallsIn(t, subs[t], reason)
    ensures CallsTo(Subscriptions(subs - rest), reason) !! CallsIn(t, subs[t], reason)
  {
    var some, all := Subscriptions(subs - rest), Subscriptions(subs - (rest - {t}));
    assert forall p: Subscription :: p in all <==> p in some || (p.0 == t && p.1 in subs[t]);
    forall c: Call ensures c in CallsTo(all, reason) <==> c in CallsTo(some, reason) + CallsIn(t, subs[t], reason) {
      assert c in CallsTo(all, reason) <==> c.reason == reason && (c.tenant, c.handler) in all;
      assert c in CallsTo(some, reason) <==> c.reason == reason && (c.tenant, c.handler) in some;
    }
  }

  lemma DisjointBatches(made: seq<Call>, batch: seq<Call>, a: set<Call>, b: set<Call>)
    requires multiset(made) == multiset(a) && multiset(batch) == multiset(b) && a !! b
    ensures multiset(made + batch) == multiset(a + b)
  {
    assert multiset(a + b) == multiset(a) + multiset(b);
  }

  // ---------------------------------------------------------------- the calls made are the calls the runs count

  ghost function PairsOf(made: seq<Call>): set<Subscription> {
    set c | c in made :: (c.tenant, c.handler)
  }

  /** The event is the delivery of this message. */
  predicate Delivers(w: World, e: Event, msg: Message) {
    && msg.channel == CHANNEL && msg.payload.Fields? && msg.payload.orgId.Some?
    && (|| (e.DeliverNext? && w.wire != [] && w.wire[0] == msg.payload.orgId.value)
        || e == DeliverStray(msg.payload.orgId.value))
  }

  lemma PairsOfCalls(made: seq<Call>, subscriptions: set<Subscription>, reason: Reason)
    requires multiset(made) == multiset(CallsTo(subscriptions, reason))
    ensures PairsOf(made) == subscriptions
  {
    assert forall c :: c in made <==> c in multiset(made);
    forall p: Subscription ensures p in PairsOf(made) <==> p in subscriptions {
      if p in subscriptions { assert Call(p.0, p.1, reason) in CallsTo(subscriptions, reason); }
    }
  }

  lemma BroadcastIsCalled(w: World, made: seq<Call>)
    requires CanHappen(w, BroadcastReconnect)
    requires multiset(made) == multiset(CallsTo(Subscriptions(w.s.subs), "reconnect"))
    ensures Called(w, BroadcastReconnect) == PairsOf(made)
  {
    PairsOfCalls(made, Subscriptions(w.s.subs), "reconnect");
  }

  lemma DeliveryIsCalled(w: World, e: Event, msg: Message, made: seq<Call>)
    requires CanHappen(w, e) && Delivers(w, e, msg)
    requires multiset(made) == multiset(CallsFor(Subscriptions(w.s.subs), msg))
    ensures Called(w, e) == PairsOf(made)
  {
    var t := msg.payload.orgId.value;
    if t == "" {
      assert |made| == |multiset(made)|;
    } else {
      PairsOfCalls(made, (set p | p in Subscriptions(w.s.subs) && p.0 == t), ReasonOf(msg.payload.reason));
      assert (set p | p in Subscriptions(w.s.subs) && p.0 == t) == SubscriptionsOf(w.s.subs, t);
    }
  }

  /** How many of the calls are to handlers that throw. */
  function ThrownIn(made: seq<Call>, throwing: set<Handler>): nat {
    if made == [] then 0
    else ThrownIn(made[..|made| - 1], throwing) + if made[|made| - 1].handler in throwing then 1 else 0
  }

  lemma {:induction false} ThrownInBoth(made: seq<Call>, batch: seq<Call>, throwing: set<Handler>)
    ensures ThrownIn(made + batch, throwing) == ThrownIn(made, throwing) + ThrownIn(batch, throwing)
    decreases |batch|
  {
    if batch == [] {
      assert made + batch == made;
    } else {
      ThrownInBoth(made, batch[..|batch| - 1], throwing);
      assert (made + batch)[..|made + batch| - 1] == made + batch[..|batch| - 1];
    }
  }

  lemma OneMoreCall(made: seq<Call>, c: Call, throwing: set<Handler>)
    ensures ThrownIn(made + [c], throwing) == ThrownIn(made, throwing) + if c.handler in throwing then 1 else 0
  {
    assert (made + [c])[..|made|] == made;
  }

  lemma OneTenantMore(subs: map<Tenant, set<Handler>>, rest: set<Tenant>, t: Tenant, reason: Reason, made: seq<Call>,
      batch: seq<Call>)
    requires t in rest && t in subs
    requires multiset(made) == multiset(CallsTo(Subscriptions(subs - rest), reason))
    requires multiset(batch) == multiset(CallsIn(t, subs[t], reason))
    ensures multiset(made + batch) == multiset(CallsTo(Subscriptions(subs - (rest - {t})), reason))
  {
    hide Subscriptions, CallsTo, CallsIn;
    CallsSplitByTenant(subs, rest, t, reason);
    DisjointBatches(made, batch, CallsTo(Subscriptions(subs - rest), reason), CallsIn(t, subs[t], reason));
  }

  lemma OneHandlerMore(t: Tenant, handlers: set<Handler>, rest: set<Handler>, h: Handler, reason: Reason,
      made: seq<Call>)
    requires h in rest && rest <= handlers && multiset(made) == multiset(CallsIn(t, handlers - rest, reason))
    ensures multiset(made + [Call(t, h, reason)]) == multiset(CallsIn(t, handlers - (rest - {h}), reason))
  {
    assert CallsIn(t, handlers - (rest - {h}), reason) == CallsIn(t, handlers - rest, reason) + {Call(t, h, reason)};
    DisjointBatches(made, [Call(t, h, reason)], CallsIn(t, handlers - rest, reason), {Call(t, h, reason)});
  }

  lemma NoCalls(throwing: set<Handler>)
    ensures ThrownIn([], throwing) == 0
  {
  }

  lemma NoCallsYet(subs: map<Tenant, set<Handler>>, reason: Reason)
    ensures CallsTo(Subscriptions(subs - subs.Keys), reason) == {}
  {
    assert subs - subs.Keys == map[];
  }

  lemma ConnectInstalls(s: State)
    requires Inv(s) && s.connecting.InFlight?
    ensures s.installed.None?
    ensures var c := s.connecting;
            Step(s, ConnectSucceeds) == s.(installed := Some(c.client), attempt := 0, heartbeat := true,
                                           connecting := Resolved(c.client, c.owner), ready := s.ready + c.waiters,
                                           listened := true)
  {
  }

  /** What a handler that throws leaves its caller with. */
  datatype Thrown = Thrown

  class Listener {
    // The module state of the source
    var listenerClient: Option<ClientId>
    var connecting: Connecting
    var reconnectAttempt: nat
    var heartbeatTimer: bool
    var shuttingDown: bool
    var subscribers: map<Tenant, set<Handler>>
    // What it has queued on the event loop
    var timers: seq<nat>
    var ready: nat
    var teardowns: set<ClientId>
    var probes: multiset<ClientId>
    // What it has done to the world
    var created: nat
    var ended: seq<ClientId>
    var calls: seq<Call>
    var warnings: nat
    ghost var listened: bool

    ghost function View(): State
      reads this
    {
      State(listenerClient, connecting, reconnectAttempt, heartbeatTimer, shuttingDown, subscribers,
            timers, ready, teardowns, probes, created, ended, listened)
    }

    ghost predicate Valid()
      reads this
    {
      Inv(View())
    }

    constructor ()
      ensures Valid() && View() == INITIAL && calls == []
    {
      listenerClient, connecting, reconnectAttempt := None, Idle, 0;
      heartbeatTimer, shuttingDown, subscribers := false, false, map[];
      timers, ready, teardowns, probes := [], 0, {}, multiset{};
      created, ended, calls, warnings, listened := 0, [], [], 0, false;
    }

    method EnsureClient(who: Caller)
      modifies this`connecting, this`ready, this`created
      ensures View() == ListenerProtocol.EnsureClient(old(View()), who)
    {
      if listenerClient.Some? {
        if who.TimerCallback? { ready := ready + 1; }
        return;
      }
      match connecting {
        case Idle =>
          connecting := InFlight(created, who, 0);
          created := created + 1;
        case InFlight(c, o, w) =>
          if who.TimerCallback? { connecting := InFlight(c, o, w + 1); }
        case Resolved(_, _) =>
          if who.TimerCallback? { ready := ready + 1; }
        case Rejected(_) =>
      }
    }

    method ScheduleReconnect()
      modifies this`timers, this`reconnectAttempt
      ensures View() == ListenerProtocol.ScheduleReconnect(old(View()))
      ensures shuttingDown ==> timers == old(timers) && reconnectAttempt == old(reconnectAttempt)
      ensures !shuttingDown ==>
                && reconnectAttempt == old(reconnectAttempt) + 1
                && exists ms :: IsDelay(old(reconnectAttempt), ms) && timers == old(timers) + [ms]
    {
      if shuttingDown { return; }
      var table := [1000, 2000, 5000];
      var delay := table[if reconnectAttempt < |table| - 1 then reconnectAttempt else |table| - 1];
      reconnectAttempt := reconnectAttempt + 1;
      assert IsDelay(old(reconnectAttempt), delay);
      timers := timers + [delay];
    }

    /** The connect promise resolves: LISTEN is in force and the client is installed. */
    method ConnectSucceeded()
      requires Valid() && connecting.InFlight?
      modifies this`listenerClient, this`reconnectAttempt, this`heartbeatTimer, this`connecting, this`ready,
          this`listened
      ensures Valid() && View() == Step(old(View()), ConnectSucceeds) && calls == old(calls)
      ensures old(listenerClient).None?
    {
      StepKeepsInv(View(), ConnectSucceeds);
      ConnectInstalls(View());
      hide Inv, Step, Enabled;
      listenerClient, reconnectAttempt, heartbeatTimer := Some(connecting.client), 0, true;
      ready, listened := ready + connecting.waiters, true;
      connecting := Resolved(connecting.client, connecting.owner);
    }

    method ConnectFailed()
      requires Valid() && connecting.InFlight?
      modifies this`connecting
      ensures Valid() && View() == Step(old(View()), ConnectFails)
    {
      StepKeepsInv(View(), ConnectFails);
      connecting := Rejected(connecting.client);
    }

    /** The caller that created the promise resumes: only its catch block schedules the retry. */
    method OwnerResumed()
      requires Valid() && (connecting.Resolved? || connecting.Rejected?)
      modifies this`connecting, this`ready, this`timers, this`reconnectAttempt
      ensures Valid() && View() == Step(old(View()), OwnerResumes)
    {
      StepKeepsInv(View(), OwnerResumes);
      if connecting.Rejected? {
        ScheduleReconnect();
      } else if connecting.owner.TimerCallback? {
        ready := ready + 1;
      }
      connecting := Idle;
    }

    method TeardownAndReconnect(c: ClientId)
      requires Valid()
      modifies this`listenerClient, this`heartbeatTimer, this`ended, this`teardowns
      ensures Valid() && View() == Step(old(View()), ClientErrors(c))
      ensures old(listenerClient) != Some(c) ==> View() == old(View())
      ensures old(listenerClient) == Some(c) ==>
                && listenerClient.None? && !heartbeatTimer
                && teardowns == old(teardowns) + {c} && ended == old(ended) + [c]
    {
      StepKeepsInv(View(), ClientErrors(c));
      if listenerClient != Some(c) { return; }
      listenerClient := None;
      heartbeatTimer := false;
      ended := ended + [c];
      teardowns := teardowns + {c};
    }

    method OnEnd(c: ClientId)
      requires Valid()
      modifies this`listenerClient, this`heartbeatTimer, this`ended, this`teardowns
      ensures Valid() && View() == Step(old(View()), ClientEnds(c))
      ensures shuttingDown || old(listenerClient) != Some(c) ==> View() == old(View())
      ensures !shuttingDown && old(listenerClient) == Some(c) ==>
                && listenerClient.None? && !heartbeatTimer
                && teardowns == old(teardowns) + {c} && ended == old(ended) + [c]
    {
      if shuttingDown { return; }
      TeardownAndReconnect(c);
    }

    method EndSettled(c: ClientId)
      requires Valid() && c in teardowns
      modifies this`teardowns, this`timers, this`reconnectAttempt
      ensures Valid() && View() == Step(old(View()), EndSettles(c))
    {
      StepKeepsInv(View(), EndSettles(c));
      teardowns := teardowns - {c};
      ScheduleReconnect();
    }

    method RunHeartbeat()
      requires Valid() && heartbeatTimer
      modifies this`probes
      ensures Valid() && View() == Step(old(View()), HeartbeatTicks)
    {
      StepKeepsInv(View(), HeartbeatTicks);
      if listenerClient.None? { return; }
      probes := probes + multiset{listenerClient.value};
    }

    method ProbeSettled(c: ClientId, ok: bool)
      requires Valid() && c in probes
      modifies this`probes, this`listenerClient, this`heartbeatTimer, this`ended, this`teardowns
      ensures Valid() && View() == Step(old(View()), ProbeSettles(c, ok))
    {
      StepKeepsInv(View(), ProbeSettles(c, true));
      hide Inv;
      probes := probes - multiset{c};
      if !ok { TeardownAndReconnect(c); }
    }

    method TimerFired(i: nat)
      requires Valid() && i < |timers| && (connecting.Idle? || connecting.InFlight?)
      modifies this`timers, this`connecting, this`ready, this`created
      ensures Valid() && View() == Step(old(View()), TimerFires(i))
    {
      StepKeepsInv(View(), TimerFires(i));
      timers := timers[..i] + timers[i + 1..];
      EnsureClient(TimerCallback);
    }

    /** Calls one handler, which may throw after it has been called. */
    method Invoke(c: Call, throwing: set<Handler>) returns (r: Result<(), Thrown>)
      modifies this`calls
      ensures calls == old(calls) + [c]
      ensures r.Err? <==> c.handler in throwing
    {
      calls := calls + [c];
      r := if c.handler in throwing then Err(Thrown.Thrown) else Ok(());
    }

    /** Calls the handlers of one registration set; a handler that throws is logged, and the loop goes on. */
    method CallAll(t: Tenant, handlers: set<Handler>, reason: Reason, throwing: set<Handler>)
        returns (ghost made: seq<Call>)
      modifies this`calls, this`warnings
      ensures calls == old(calls) + made
      ensures warnings == old(warnings) + ThrownIn(made, throwing)
      ensures multiset(made) == multiset(CallsIn(t, handlers, reason))
    {
      var rest := handlers;
      made := [];
      assert CallsIn(t, handlers - rest, reason) == {};
      hide CallsIn, ThrownIn;
      NoCalls(throwing);
      while rest != {}
        invariant rest <= handlers
        invariant calls == old(calls) + made
        invariant warnings == old(warnings) + ThrownIn(made, throwing)
        invariant multiset(made) == multiset(CallsIn(t, handlers - rest, reason))
      {
        var h :| h in rest;
        OneHandlerMore(t, handlers, rest, h, reason, made);
        OneMoreCall(made, Call(t, h, reason), throwing);
        var r := Invoke(Call(t, h, reason), throwing);
        made := made + [Call(t, h, reason)];
        if r.Err? { warnings := warnings + 1; }
        rest := rest - {h};
      }
      assert handlers - rest == handlers;
    }

    method CallEveryone(reason: Reason, throwing: set<Handler>) returns (ghost made: seq<Call>)
      modifies this`calls, this`warnings
      ensures calls == old(calls) + made
      ensures warnings == old(warnings) + ThrownIn(made, throwing)
      ensures multiset(made) == multiset(CallsTo(Subscriptions(subscribers), reason))
    {
      var rest := subscribers.Keys;
      made := [];
      NoCallsYet(subscribers, reason);
      NoCalls(throwing);
      hide Subscriptions, CallsTo, CallsIn, ThrownIn;
      while rest != {}
        invariant rest <= subscribers.Keys
        invariant calls == old(calls) + made
        invariant warnings == old(warnings) + ThrownIn(made, throwing)
        invariant multiset(made) == multiset(CallsTo(Subscriptions(subscribers - rest), reason))
      {
        var t :| t in rest;
        ghost var batch := CallAll(t, subscribers[t], reason, throwing);
        OneTenantMore(subscribers, rest, t, reason, made, batch);
        ThrownInBoth(made, batch, throwing);
        made := made + batch;
        rest := rest - {t};
      }
      assert subscribers - rest == subscribers;
    }

    /** Every live registration is called exactly once, whichever handlers throw. */
    method BroadcastReconnected(throwing: set<Handler>) returns (ghost made: seq<Call>)
      requires Valid() && ready > 0
      modifies this`ready, this`calls, this`warnings
      ensures Valid() && View() == Step(old(View()), BroadcastReconnect)
      ensures calls == old(calls) + made
      ensures multiset(made) == multiset(CallsTo(Subscriptions(subscribers), "reconnect"))
      ensures warnings == old(warnings) + ThrownIn(made, throwing)
      ensures forall w: World :: w.s == old(View()) ==> Called(w, BroadcastReconnect) == PairsOf(made)
    {
      ghost var before := View();
      StepKeepsInv(before, BroadcastReconnect);
      ready := ready - 1;
      hide Subscriptions, CallsTo, ThrownIn;
      made := CallEveryone("reconnect", throwing);
      forall w: World | w.s == before
        ensures Called(w, BroadcastReconnect) == PairsOf(made)
      {
        BroadcastIsCalled(w, made);
      }
    }

    /** A message calls each handler of its own org exactly once and nobody else, whichever handlers throw;
        a payload that is JSON null makes the function itself throw, before any handler is called. */
    method HandleNotification(msg: Message, throwing: set<Handler>)
      returns (threw: bool, ghost made: seq<Call>)
      modifies this`calls, this`warnings
      ensures View() == old(View())
      ensures threw <==> msg.channel == CHANNEL && msg.payload.JsonNull?
      ensures calls == old(calls) + made
      ensures multiset(made) == multiset(CallsFor(Subscriptions(subscribers), msg))
      ensures msg.channel != "proposal_changed" ==> made == [] && warnings == old(warnings)
      ensures msg.channel == "proposal_changed" && msg.payload.Malformed? ==>
                made == [] && warnings == old(warnings) + 1
      ensures !msg.payload.Malformed? ==> warnings == old(warnings) + ThrownIn(made, throwing)
      ensures forall w: World, e: Event ::
                w.s == View() && CanHappen(w, e) && Delivers(w, e, msg) ==> Called(w, e) == PairsOf(made)
    {
      threw, made := Handle(msg, throwing);
      forall w: World, e: Event | w.s == View() && CanHappen(w, e) && Delivers(w, e, msg)
        ensures Called(w, e) == PairsOf(made)
      {
        DeliveryIsCalled(w, e, msg, made);
      }
    }

    /** The body of handleNotification. */
    method Handle(msg: Message, throwing: set<Handler>) returns (threw: bool, ghost made: seq<Call>)
      modifies this`calls, this`warnings
      ensures View() == old(View())
      ensures threw <==> msg.channel == CHANNEL && msg.payload.JsonNull?
      ensures calls == old(calls) + made
      ensures multiset(made) == multiset(CallsFor(Subscriptions(subscribers), msg))
      ensures msg.channel != "proposal_changed" ==> made == [] && warnings == old(warnings)
      ensures msg.channel == "proposal_changed" && msg.payload.Malformed? ==>
                made == [] && warnings == old(warnings) + 1
      ensures !msg.payload.Malformed? ==> warnings == old(warnings) + ThrownIn(made, throwing)
    {
      threw, made := false, [];
      if msg.channel != CHANNEL { return; }
      var orgId: Option<string>, reason: Reason := None, "created";
      match msg.payload {
        case Missing =>
        case Malformed =>
          warnings := warnings + 1;
          return;
        case JsonNull =>
          threw := true;
          return;
        case Fields(o, r) =>
          orgId := o;
          reason := if r.Some? && IsReason(r.value) then r.value else "created";
      }
      if orgId.None? || orgId.value == "" { return; }
      var org := orgId.value;
      if org !in subscribers || subscribers[org] == {} {
        assert (set p | p in Subscriptions(subscribers) && p.0 == org) == {};
        return;
      }
      CallsOfOneTenant(subscribers, org, reason);
      made := CallAll(org, subscribers[org], reason, throwing);
    }

    method SubscribeProposalChanged(t: Tenant, h: Handler)
      requires Valid()
      modifies this`subscribers, this`connecting, this`ready, this`created
      ensures Valid() && View() == Step(old(View()), Subscribe(t, h))
      ensures Subscriptions(subscribers) == old(Subscriptions(subscribers)) + {(t, h)}
    {
      StepKeepsInv(View(), Subscribe(t, h));
      AddAddsOne(subscribers, t, h);
      var handlers := if t in subscribers then subscribers[t] else {};
      subscribers := subscribers[t := handlers + {h}];
      EnsureClient(ApiCall);
    }

    method Unsubscribe(t: Tenant, h: Handler)
      requires Valid()
      modifies this`subscribers
      ensures Valid() && View() == Step(old(View()), Event.Unsubscribe(t, h))
      ensures Subscriptions(subscribers) == old(Subscriptions(subscribers)) - {(t, h)}
    {
      StepKeepsInv(View(), Event.Unsubscribe(t, h));
      DropRemovesOne(subscribers, t, h);
      if t !in subscribers { return; }
      var rest := subscribers[t] - {h};
      if rest == {} {
        subscribers := subscribers - {t};
      } else {
        subscribers := subscribers[t := rest];
      }
    }

    method NotifyProposalChanged()
      requires Valid()
      modifies this`connecting, this`ready, this`created
      ensures Valid() && View() == Step(old(View()), Notify)
    {
      StepKeepsInv(View(), Notify);
      EnsureClient(ApiCall);
    }

    method ShutdownPgListener()
      requires Valid()
      modifies this`shuttingDown, this`heartbeatTimer, this`subscribers, this`listenerClient, this`ended
      ensures Valid() && View() == Step(old(View()), Shutdown)
      ensures shuttingDown && !heartbeatTimer && subscribers == map[] && listenerClient.None?
      ensures ended == old(ended) + if old(listenerClient).Some? then [old(listenerClient).value] else []
    {
      StepKeepsInv(View(), Shutdown);
      shuttingDown := true;
      heartbeatTimer := false;
      subscribers := map[];
      var client := listenerClient;
      listenerClient := None;
      if client.Some? { ended := ended + [client.value]; }
    }
  }
}
