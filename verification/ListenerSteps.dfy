/**
 What becomes of single clients, retries and callers of the bus, over the few steps that decide it.
 */
module ListenerSteps {
  import opened Wrappers
  import opened ListenerProtocol
  import opened ListenerRuns

  // ---------------------------------------------------------------- a client that ends

  /** How the installed client c is found to be gone: its error event, its end event, or a failed heartbeat. */
  predicate FindsGone(s: State, e: Event, c: ClientId) {
    || e == ClientErrors(c)
    || (e == ClientEnds(c) && !s.shutdown)
    || (e == ProbeSettles(c, false) && c in s.probes)
  }

  /** The installed client is taken down at once: nobody is installed, the heartbeat is disarmed, end() is called and
      awaited; nothing else changes, but for the probe that has settled. */
  lemma GoneClientIsTakenDown(s: State, e: Event, c: ClientId)
    requires s.installed == Some(c) && FindsGone(s, e, c)
    ensures var s' := Step(s, e);
            && s'.installed == None && !s'.heartbeat && s'.teardowns == s.teardowns + {c} && s'.endLog == s.endLog + [c]
            && s' == s.(installed := s'.installed, heartbeat := s'.heartbeat, teardowns := s'.teardowns,
                        endLog := s'.endLog, probes := s'.probes)
            && s'.probes == if e.ProbeSettles? then s.probes - multiset{c} else s.probes
  {
  }

  /** Once shut down, an end event changes nothing. */
  lemma EndAfterShutdownIsIgnored(s: State, c: ClientId)
    requires s.shutdown
    ensures Step(s, ClientEnds(c)) == s
  {
  }

  /** The delay after so many retries without a success. */
  predicate IsDelay(retries: nat, ms: nat) {
    (retries == 0 && ms == 1000) || (retries == 1 && ms == 2000) || (retries >= 2 && ms == 5000)
  }

  /** When end() settles, exactly one timer is added, with the delay that is due, or none after shutdown. */
  lemma SettledEndSchedulesOne(s: State, c: ClientId)
    requires c in s.teardowns
    ensures var s' := Step(s, EndSettles(c));
            && s'.teardowns == s.teardowns - {c}
            && s' == s.(teardowns := s'.teardowns, timers := s'.timers, attempt := s'.attempt)
            && (s.shutdown ==> s'.timers == s.timers && s'.attempt == s.attempt)
            && (!s.shutdown ==>
                  && |s'.timers| == |s.timers| + 1 && s'.timers[..|s.timers|] == s.timers
                  && IsDelay(s.attempt, s'.timers[|s.timers|]) && s'.attempt == s.attempt + 1)
  {
  }

  /** A client that is found gone is replaced: its end() settles, the timer fires, the connect succeeds, and a client
      that never was before is installed, with a broadcast due and the backoff back at its start. */
  lemma GoneClientIsReplaced(s: State, e: Event, c: ClientId)
    requires Inv(s) && !s.shutdown && s.installed == Some(c) && s.connecting.Idle? && FindsGone(s, e, c)
    ensures var s1 := Step(s, e);
            && Enabled(s1, EndSettles(c))
            && var s2 := Step(s1, EndSettles(c));
               && |s2.timers| > 0 && Enabled(s2, TimerFires(|s2.timers| - 1))
               && var s3 := Step(s2, TimerFires(|s2.timers| - 1));
                  && s3.timers == s.timers && Enabled(s3, ConnectSucceeds)
                  && var s4 := Step(s3, ConnectSucceeds);
                     && s4.installed == Some(s.created) && s4.created == s.created + 1 && s4.heartbeat
                     && s4.attempt == 0 && Enabled(s4, OwnerResumes)
                     && var s5 := Step(s4, OwnerResumes);
                        s5.installed == s4.installed && s5.connecting == Idle && s5.ready == s.ready + 1
  {
    GoneClientIsTakenDown(s, e, c);
    var s1 := Step(s, e);
    SettledEndSchedulesOne(s1, c);
    var s2 := Step(s1, EndSettles(c));
    var n := |s.timers|;
    assert s2.timers[..n] + s2.timers[n + 1..] == s.timers;
    hide Inv;
  }

  // ---------------------------------------------------------------- backoff over runs

  /** The delay of the timer a step sets, if it sets one. */
  function DelaySet(s: State, s': State): seq<nat> {
    if |s'.timers| > |s.timers| then [s'.timers[|s'.timers| - 1]] else []
  }

  /** The delays of the timers a run sets, in order. */
  ghost function DelaysSet(w: World, es: seq<Event>): seq<nat>
    requires IsRun(w, es)
    decreases |es|
  {
    if es == [] then [] else DelaySet(w.s, Next(w, es[0]).s) + DelaysSet(Next(w, es[0]), es[1..])
  }

  lemma ScheduleSetsTheDueDelay(s: State)
    ensures var s' := ScheduleReconnect(s);
            && |DelaySet(s, s')| <= 1 && s'.attempt == s.attempt + |DelaySet(s, s')|
            && (DelaySet(s, s') != [] ==> IsDelay(s.attempt, DelaySet(s, s')[0]))
  {
  }

  lemma StepSetsTheDueDelay(s: State, e: Event)
    requires Enabled(s, e) && !e.ConnectSucceeds?
    ensures var s' := Step(s, e);
            && |DelaySet(s, s')| <= 1 && s'.attempt == s.attempt + |DelaySet(s, s')|
            && (DelaySet(s, s') != [] ==> IsDelay(s.attempt, DelaySet(s, s')[0]))
  {
    hide IsDelay;
    match e
    case EndSettles(c) => ScheduleSetsTheDueDelay(s);
    case OwnerResumes => ScheduleSetsTheDueDelay(s);
    case _ =>
  }

  /** Until a connect succeeds, the retries of a run wait one second, two seconds, and then five each time, counted from
      the last success. */
  lemma {:induction false} RetriesBackOff(w: World, es: seq<Event>, i: nat)
    requires IsRun(w, es) && (forall e <- es :: !e.ConnectSucceeds?) && i < |DelaysSet(w, es)|
    ensures IsDelay(w.s.attempt + i, DelaysSet(w, es)[i])
    decreases |es|
  {
    assert es[0] in es;
    StepSetsTheDueDelay(w.s, es[0]);
    NextSteps(w, es[0]);
    hide Step, IsDelay, DelaySet, Next;
    var n := |DelaySet(w.s, Next(w, es[0]).s)|;
    if i >= n { RetriesBackOff(Next(w, es[0]), es[1..], i - n); }
  }

  lemma NextSteps(w: World, e: Event)
    requires CanHappen(w, e)
    ensures Next(w, e).s == Step(w.s, e)
  {
  }

  /** The caller that made the connect clears it in any case; after a failure it sets one timer, unless shut down. */
  lemma OwnerClearsTheConnect(s: State)
    requires s.connecting.Resolved? || s.connecting.Rejected?
    ensures var s' := Step(s, OwnerResumes);
            && s'.connecting == Idle && s'.installed == s.installed && s'.created == s.created
            && (s.connecting.Resolved? || s.shutdown ==> s'.timers == s.timers)
            && (s.connecting.Rejected? && !s.shutdown ==>
                  |s'.timers| == |s.timers| + 1 && s'.timers[..|s.timers|] == s.timers
                  && IsDelay(s.attempt, s'.timers[|s.timers|]))
  {
  }

  /** A timer that fires is gone, and no other. */
  lemma TimerFiresOnce(s: State, i: nat)
    requires Enabled(s, TimerFires(i))
    ensures var s' := Step(s, TimerFires(i));
            && |s'.timers| == |s.timers| - 1
            && forall j :: 0 <= j < |s'.timers| ==> s'.timers[j] == s.timers[if j < i then j else j + 1]
  {
  }

  /** A heartbeat probes the installed client, and a probe that succeeds leaves everything else as it was. */
  lemma WellClientStays(s: State, c: ClientId)
    requires s.installed == Some(c) && s.heartbeat
    ensures var s' := Step(s, HeartbeatTicks);
            && s'.probes == s.probes + multiset{c} && Enabled(s', ProbeSettles(c, true))
            && Step(s', ProbeSettles(c, true)) == s
  {
  }

  lemma SuccessResetsTheBackoff(s: State)
    requires s.connecting.InFlight?
    ensures Step(s, ConnectSucceeds).attempt == 0
  {
  }

  // ---------------------------------------------------------------- callers share a connect

  predicate IsRequest(e: Event) { e.Subscribe? || e.Notify? }

  lemma RequestStartsOneConnect(s: State, e: Event)
    requires IsRequest(e)
    ensures Enabled(s, e)
    ensures var s' := Step(s, e);
            && s'.installed == s.installed
            && s' == s.(subs := s'.subs, connecting := s'.connecting, created := s'.created)
            && if s.installed.None? && s.connecting.Idle?
               then s'.created == s.created + 1 && s'.connecting == InFlight(s.created, ApiCall, 0)
               else s'.created == s.created && s'.connecting == s.connecting
  {
  }

  /** However many callers ask, one connect is started if nobody is installed and none is under way, and else none. */
  lemma {:induction false} RequestsShareOneConnect(w: World, es: seq<Event>)
    requires IsRun(w, es) && es != [] && forall e <- es :: IsRequest(e)
    ensures var s, s' := w.s, After(w, es).s;
            if s.installed.None? && s.connecting.Idle?
            then s'.created == s.created + 1 && s'.connecting == InFlight(s.created, ApiCall, 0)
            else s'.created == s.created && s'.connecting == s.connecting
    decreases |es|
  {
    assert es[0] in es;
    RequestStartsOneConnect(w.s, es[0]);
    NextSteps(w, es[0]);
    hide Next, Step;
    if |es| > 1 {
      RequestsShareOneConnect(Next(w, es[0]), es[1..]);
    } else {
      assert After(w, es) == Next(w, es[0]) by { assert es[1..] == []; }
    }
  }

  // ---------------------------------------------------------------- what becomes of the timers that fire

  /** Timer callbacks that have fired and not yet broadcast. */
  function CallbacksWaiting(s: State): nat {
    s.ready + match s.connecting
              case InFlight(_, owner, waiters) => waiters + (if owner.TimerCallback? then 1 else 0)
              case Resolved(_, owner) => if owner.TimerCallback? then 1 else 0
              case _ => 0
  }

  function Broadcasts(es: seq<Event>): nat {
    if es == [] then 0 else (if es[0].BroadcastReconnect? then 1 else 0) + Broadcasts(es[1..])
  }

  /** Callbacks whose connect failed. */
  function LostAt(s: State, e: Event): nat {
    if e.ConnectFails? && s.connecting.InFlight?
    then s.connecting.waiters + (if s.connecting.owner.TimerCallback? then 1 else 0)
    else 0
  }

  ghost function CallbacksLost(w: World, es: seq<Event>): nat
    requires IsRun(w, es)
    decreases |es|
  {
    if es == [] then 0 else LostAt(w.s, es[0]) + CallbacksLost(Next(w, es[0]), es[1..])
  }

  lemma EnsureCounts(s: State, who: Caller)
    requires s.connecting.Rejected? ==> who.ApiCall?
    ensures CallbacksWaiting(EnsureClient(s, who)) == CallbacksWaiting(s) + if who.TimerCallback? then 1 else 0
  {
  }

  lemma StepConservesCallbacks(s: State, e: Event)
    requires Enabled(s, e)
    ensures CallbacksWaiting(Step(s, e)) + (if e.BroadcastReconnect? then 1 else 0) + LostAt(s, e)
         == CallbacksWaiting(s) + Fires(e)
  {
    if e.Subscribe? || e.Notify? || e.TimerFires? {
      hide CallbacksWaiting;
      match e
      case Subscribe(t, h) => EnsureCounts(s.(subs := AddSubscriber(s.subs, t, h)), ApiCall);
      case Notify => EnsureCounts(s, ApiCall);
      case TimerFires(i) => EnsureCounts(s.(timers := s.timers[..i] + s.timers[i + 1..]), TimerCallback);
    } else if e.ConnectSucceeds? || e.ConnectFails? || e.OwnerResumes? || e.BroadcastReconnect? {
      SettlingCounts(s, e);
    } else {
      OthersCountNothing(s, e);
    }
  }

  lemma SettlingCounts(s: State, e: Event)
    requires Enabled(s, e) && (e.ConnectSucceeds? || e.ConnectFails? || e.OwnerResumes? || e.BroadcastReconnect?)
    ensures CallbacksWaiting(Step(s, e)) + (if e.BroadcastReconnect? then 1 else 0) + LostAt(s, e)
         == CallbacksWaiting(s)
  {
    hide EnsureClient, Teardown;
  }

  lemma OthersCountNothing(s: State, e: Event)
    requires Enabled(s, e) && !e.Subscribe? && !e.Notify? && !e.TimerFires?
    requires !e.ConnectSucceeds? && !e.ConnectFails? && !e.OwnerResumes? && !e.BroadcastReconnect?
    ensures Step(s, e).ready == s.ready && Step(s, e).connecting == s.connecting
    ensures CallbacksWaiting(Step(s, e)) == CallbacksWaiting(s) && LostAt(s, e) == 0
  {
    hide EnsureClient, CallbacksWaiting;
    SameCallbacks(s, Step(s, e));
  }

  lemma SameCallbacks(s: State, s': State)
    ensures s.ready == s'.ready && s.connecting == s'.connecting ==> CallbacksWaiting(s) == CallbacksWaiting(s')
  {
  }

  /** Over any run, each timer that fires is followed by one broadcast, or waits for its connect, or was lost with
      it. */
  lemma {:induction false} FiredTimersAreConserved(w: World, es: seq<Event>)
    requires IsRun(w, es)
    ensures CallbacksWaiting(After(w, es).s) + Broadcasts(es) + CallbacksLost(w, es)
         == CallbacksWaiting(w.s) + TimersFired(es)
    decreases |es|
  {
    if es != [] {
      StepConservesCallbacks(w.s, es[0]);
      hide Step, CallbacksWaiting, LostAt;
      FiredTimersAreConserved(Next(w, es[0]), es[1..]);
    }
  }

  // ---------------------------------------------------------------- shutdown

  /** Shutdown leaves nobody installed or registered and the heartbeat disarmed, calls end() on the installed client if
      there is one, and touches nothing else. */
  lemma ShutdownClearsTheBus(s: State)
    ensures var s' := Step(s, Shutdown);
            && s'.shutdown && !s'.heartbeat && s'.installed.None? && s'.subs == map[]
            && s'.endLog == (if s.installed.Some? then s.endLog + [s.installed.value] else s.endLog)
            && s' == s.(shutdown := s'.shutdown, heartbeat := s'.heartbeat, installed := s'.installed, subs := s'.subs,
                        endLog := s'.endLog)
  {
  }

  // ---------------------------------------------------------------- the environment is free

  /** Nothing keeps connections from dying, changes from being made, or old clients from delivering. */
  lemma EnvironmentIsFree(w: World, c: ClientId, t: Tenant)
    ensures CanHappen(w, Change(t)) && CanHappen(w, DeliverStray(t))
    ensures CanHappen(w, Die(c)) <==> c < w.s.created
    ensures CanHappen(w, DeliverNext) <==> w.wire != []
    ensures CanHappen(w, ClientErrors(c)) && CanHappen(w, ClientEnds(c))
    ensures CanHappen(w, ConnectFails) <==> w.s.connecting.InFlight?
    ensures CanHappen(w, ConnectSucceeds) <==> w.s.connecting.InFlight?
    ensures CanHappen(w, EndSettles(c)) <==> c in w.s.teardowns
  {
  }

  /** After the first LISTEN, a change makes the bus owe a call to everybody registered for its tenant, and is put on
      the wire if the installed client still LISTENs. */
  lemma ChangeIsOwed(w: World, t: Tenant, h: Handler)
    requires w.s.listened && t in w.s.subs && h in w.s.subs[t]
    ensures var w' := Next(w, Change(t)); (t, h) in w'.owed && w'.s == w.s && w'.dead == w.dead
    ensures Next(w, Change(t)).wire ==
              if w.s.installed.Some? && w.s.installed.value !in w.dead then w.wire + [t] else w.wire
  {
    assert (t, h) in SubscriptionsOf(w.s.subs, t) && (t, h) in Subscriptions(w.s.subs);
  }
}
