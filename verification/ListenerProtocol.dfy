/**
 The Postgres LISTEN/NOTIFY bus of apps/api/src/db/pg-listener.ts as a state machine.

 One event is one run-to-completion segment of the code, that is the code between two awaits,
 or one act of the environment (a connection dies, another node commits a change).
 The module state of the source and the work it has queued on the event loop are `State`;
 `World` adds what the code cannot see: which connections are dead, which notifications
 are still on the wire, and which subscriptions are owed a call.
 */
module ListenerProtocol {
  import opened Wrappers

  type ClientId = nat
  type Tenant = string
  type Handler = nat
  type Subscription = (Tenant, Handler)

  /** Who called ensureClient: an API call, or the callback of a reconnect timer. */
  datatype Caller = ApiCall | TimerCallback

  /** The `connecting` promise. It stays set after it settles, until the caller that created it resumes.
      `waiters` counts the timer callbacks that piggyback on the promise of another caller. */
  datatype Connecting =
    | Idle
    | InFlight(client: ClientId, owner: Caller, waiters: nat)
    | Resolved(client: ClientId, owner: Caller)
    | Rejected(client: ClientId)

  datatype State = State(
    installed: Option<ClientId>,          // listenerClient
    connecting: Connecting,               // connecting
    attempt: nat,                         // reconnectAttempt
    heartbeat: bool,                      // heartbeatTimer !== null
    shutdown: bool,                       // shuttingDown
    subs: map<Tenant, set<Handler>>,      // subscribers
    timers: seq<nat>,                     // delays in milliseconds of the pending reconnect timers
    ready: nat,                           // timer callbacks whose awaited connect has succeeded
    teardowns: set<ClientId>,             // teardowns awaiting client.end()
    probes: multiset<ClientId>,           // heartbeat queries in flight
    created: nat,                         // clients constructed so far; the next client's id
    endLog: seq<ClientId>,                // clients on which end() was called, in order
    listened: bool                        // some client has been installed
  )

  const INITIAL := State(None, Idle, 0, false, false, map[], [], 0, {}, multiset{}, 0, [], false)

  datatype Event =
    | Subscribe(tenant: Tenant, handler: Handler)
    | Unsubscribe(tenant: Tenant, handler: Handler)
    | Notify
    | Shutdown
    | ConnectSucceeds
    | ConnectFails
    | OwnerResumes
    | ClientErrors(client: ClientId)
    | ClientEnds(client: ClientId)
    | EndSettles(client: ClientId)
    | HeartbeatTicks
    | ProbeSettles(client: ClientId, ok: bool)
    | TimerFires(timer: nat)
    | BroadcastReconnect
    | DeliverNext
    | DeliverStray(tenant: Tenant)
    | Die(client: ClientId)
    | Change(tenant: Tenant)

  // ---------------------------------------------------------------- the segments of the code

  function Backoff(attempt: nat): nat {
    if attempt == 0 then 1000 else if attempt == 1 then 2000 else 5000
  }

  function ScheduleReconnect(s: State): State {
    if s.shutdown then s
    else s.(attempt := s.attempt + 1, timers := s.timers + [Backoff(s.attempt)])
  }

  function EnsureClient(s: State, who: Caller): State {
    var one := if who.TimerCallback? then 1 else 0;
    if s.installed.Some? then s.(ready := s.ready + one)
    else match s.connecting
      case Idle => s.(connecting := InFlight(s.created, who, 0), created := s.created + 1)
      case InFlight(c, o, w) => s.(connecting := InFlight(c, o, w + one))
      case Resolved(_, _) => s.(ready := s.ready + one)
      case Rejected(_) => s
  }

  function Teardown(s: State, c: ClientId): State {
    if s.installed != Some(c) then s
    else s.(installed := None, heartbeat := false, teardowns := s.teardowns + {c}, endLog := s.endLog + [c])
  }

  function AddSubscriber(subs: map<Tenant, set<Handler>>, t: Tenant, h: Handler): map<Tenant, set<Handler>> {
    subs[t := (if t in subs then subs[t] else {}) + {h}]
  }

  function DropSubscriber(subs: map<Tenant, set<Handler>>, t: Tenant, h: Handler): map<Tenant, set<Handler>> {
    if t !in subs then subs
    else if subs[t] - {h} == {} then subs - {t}
    else subs[t := subs[t] - {h}]
  }

  /** Can the event happen in this state? A timer never runs between the settling of a promise and the
      continuation that awaits it, because the microtask queue is drained first. */
  predicate Enabled(s: State, e: Event) {
    match e
    case ConnectSucceeds => s.connecting.InFlight?
    case ConnectFails => s.connecting.InFlight?
    case OwnerResumes => s.connecting.Resolved? || s.connecting.Rejected?
    case EndSettles(c) => c in s.teardowns
    case HeartbeatTicks => s.heartbeat
    case ProbeSettles(c, _) => c in s.probes
    case TimerFires(i) => i < |s.timers| && (s.connecting.Idle? || s.connecting.InFlight?)
    case BroadcastReconnect => s.ready > 0
    case Die(c) => c < s.created
    case _ => true
  }

  function Step(s: State, e: Event): State
    requires Enabled(s, e)
  {
    match e
    case Subscribe(t, h) => EnsureClient(s.(subs := AddSubscriber(s.subs, t, h)), ApiCall)
    case Unsubscribe(t, h) => s.(subs := DropSubscriber(s.subs, t, h))
    case Notify => EnsureClient(s, ApiCall)
    case Shutdown =>
      s.(shutdown := true, heartbeat := false, subs := map[], installed := None,
         endLog := if s.installed.Some? then s.endLog + [s.installed.value] else s.endLog)
    case ConnectSucceeds =>
      var InFlight(c, o, w) := s.connecting;
      s.(installed := Some(c), attempt := 0, heartbeat := true, connecting := Resolved(c, o),
         ready := s.ready + w, listened := true)
    case ConnectFails => s.(connecting := Rejected(s.connecting.client))
    case OwnerResumes =>
      if s.connecting.Resolved? then
        s.(connecting := Idle, ready := s.ready + (if s.connecting.owner.TimerCallback? then 1 else 0))
      else ScheduleReconnect(s).(connecting := Idle)
    case ClientErrors(c) => Teardown(s, c)
    case ClientEnds(c) => if s.shutdown then s else Teardown(s, c)
    case EndSettles(c) => ScheduleReconnect(s.(teardowns := s.teardowns - {c}))
    case HeartbeatTicks =>
      if s.installed.Some? then s.(probes := s.probes + multiset{s.installed.value}) else s
    case ProbeSettles(c, ok) =>
      var s1 := s.(probes := s.probes - multiset{c});
      if ok then s1 else Teardown(s1, c)
    case TimerFires(i) => EnsureClient(s.(timers := s.timers[..i] + s.timers[i + 1..]), TimerCallback)
    case BroadcastReconnect => s.(ready := s.ready - 1)
    case _ => s
  }

  // ---------------------------------------------------------------- what every reachable state keeps

  ghost predicate NoDuplicates(q: seq<ClientId>) {
    forall i, j :: 0 <= i < j < |q| ==> q[i] != q[j]
  }

  /** With no client installed and a first LISTEN behind us, somebody who will broadcast is on the way. */
  predicate ReconnectPending(s: State) {
    || s.teardowns != {}
    || |s.timers| > 0
    || (s.connecting.InFlight? && (s.connecting.owner.TimerCallback? || s.connecting.waiters > 0))
    || s.connecting.Rejected?
  }

  predicate HealPending(s: State) {
    || ReconnectPending(s)
    || s.ready > 0
    || (s.connecting.Resolved? && s.connecting.owner.TimerCallback?)
  }

  ghost predicate ClientsDistinct(s: State) {
    && NoDuplicates(s.endLog)
    && (forall c <- s.endLog :: c < s.created)
    && (s.installed.Some? ==> s.installed.value < s.created && s.installed.value !in s.endLog)
    && (s.connecting.InFlight? ==>
          s.installed.None? && s.connecting.client < s.created && s.connecting.client !in s.endLog)
    && (forall c <- s.teardowns :: c in s.endLog)
  }

  ghost predicate WellKept(s: State) {
    && (s.heartbeat <==> s.installed.Some?)
    && (forall t <- s.subs :: s.subs[t] != {})
    && (forall d <- s.timers :: d in {1000, 2000, 5000})
    && (s.ready > 0 || s.connecting.Resolved? || s.installed.Some? ==> s.listened)
    && (!s.connecting.Idle? ==> s.created > 0)
  }

  predicate NeverStuck(s: State) {
    && (!s.shutdown && s.created > 0 ==>
        s.installed.Some? || !s.connecting.Idle? || s.teardowns != {} || |s.timers| > 0)
    && (!s.shutdown && s.listened && s.installed.None? ==> ReconnectPending(s))
  }

  ghost predicate Inv(s: State) {
    ClientsDistinct(s) && WellKept(s) && NeverStuck(s)
  }

  lemma ClientsStayDistinct(s: State, e: Event)
    requires ClientsDistinct(s) && Enabled(s, e)
    ensures ClientsDistinct(Step(s, e))
  {
    match e
    case ClientErrors(c) => TeardownKeepsDistinct(s, c);
    case ClientEnds(c) => TeardownKeepsDistinct(s, c);
    case ProbeSettles(c, ok) => TeardownKeepsDistinct(s.(probes := s.probes - multiset{c}), c);
    case Shutdown => TeardownKeepsDistinct(s, if s.installed.Some? then s.installed.value else 0);
    case _ =>
  }

  lemma TeardownKeepsDistinct(s: State, c: ClientId)
    requires ClientsDistinct(s)
    ensures ClientsDistinct(Teardown(s, c))
  {
    var log := Teardown(s, c).endLog;
    assert forall x <- log :: x in s.endLog || s.installed == Some(x);
    assert s.installed == Some(c) ==> log[|log| - 1] == c;
  }

  lemma ScheduleKeepsDelays(s: State)
    requires forall d <- s.timers :: d in {1000, 2000, 5000}
    ensures forall d <- ScheduleReconnect(s).timers :: d in {1000, 2000, 5000}
  {
    assert forall d <- ScheduleReconnect(s).timers :: d in s.timers || d == Backoff(s.attempt);
  }

  lemma StepKeepsShape(s: State, e: Event)
    requires WellKept(s) && ClientsDistinct(s) && Enabled(s, e)
    ensures WellKept(Step(s, e))
  {
    match e
    case TimerFires(i) =>
      assert forall d <- s.timers[..i] + s.timers[i + 1..] :: d in s.timers;
    case EndSettles(_) => ScheduleKeepsDelays(s);
    case OwnerResumes => ScheduleKeepsDelays(s);
    case _ =>
  }

  lemma StepNeverSticks(s: State, e: Event)
    requires Inv(s) && Enabled(s, e)
    ensures NeverStuck(Step(s, e))
  {
  }

  lemma StepKeepsInv(s: State, e: Event)
    requires Inv(s) && Enabled(s, e)
    ensures Inv(Step(s, e))
  {
    ClientsStayDistinct(s, e);
    StepKeepsShape(s, e);
    StepNeverSticks(s, e);
  }
}
