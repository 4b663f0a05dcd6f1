/** The critical sections of ServiceRunner (service_runner.go) and of health.State (health/status.go), each as one method that
    says which steps of the notification protocol it is. */
module ServiceRunners {
  import opened Common
  import opened Restart
  import opened Subscriptions
  import opened History
  import EventStream
  import ServiceTable
  import W = Wakeups

  datatype Status = Status(healthy: Option<bool>, lastChange: int, lastMessage: string)

  // The steps of the protocol that the critical sections are.

  lemma InitStep(w: W.World)
    requires W.HealthRuns(w.phase)
    ensures W.Step(w, W.HInit) == Some(w.(health := None))
  {
  }

  lemma SubscribeStep(w: W.World)
    requires w.hc && w.phase.PreSub?
    ensures W.Step(w, W.HealthSubscribe) == Some(w.(phase := W.Live, hsubs := w.hsubs + [w.h], consumer := W.CIdle))
  {
  }

  lemma UpdateSteps(w: W.World, t: W.Tid, next: SState)
    requires t in w.thr && w.thr[t] == W.UpLocked(next)
    ensures var stored := W.Step(w, W.Store(t));
      && stored.Some?
      && var flags := Flags(next, w.hc, w.health);
         W.Step(stored.value, W.ReadFlags(t))
         == Some(w.(thr := w.thr[t := W.UpPost(W.Tell(flags))], mu := W.Nobody, state := next, phase := stored.value.phase))
  {
    var m := W.Step(w, W.Store(t)).value;
    assert m.thr[t := W.UpPost(W.Tell(Flags(next, w.hc, w.health)))] == w.thr[t := W.UpPost(W.Tell(Flags(next, w.hc, w.health)))];
  }

  lemma ChangeSteps(w: W.World)
    requires w.consumer.CGot? && w.mu.Nobody?
    ensures var locked := W.Step(w, W.CLock);
      && locked.Some?
      && (w.state != Running ==> locked.value == w.(consumer := W.CIdle))
      && var evs := if InState(UpEv, w.state, w.hc, w.health) then [UpEv] else [];
         (w.state == Running ==> W.Step(locked.value, W.CEval) == Some(w.(consumer := W.CPost(W.Tell(evs)))))
  {
  }

  /** health.State. Every method runs under the health lock; now is the clock. */
  class HealthState {
    var status: Status
    var subscribers: seq<nat>

    /** The protocol's state w with the fields of this object. */
    function In(w: W.World): W.World
      reads this
    {
      w.(health := status.healthy, hsubs := subscribers)
    }

    constructor ()
      ensures status == Status(None, 0, "") && subscribers == []
    {
      status := Status(None, 0, "");
      subscribers := [];
    }

    /** Returns the channels that the change from before to after is then sent to. */
    method Update(healthy: bool, message: string, now: int) returns (before: Status, after: Status, notified: seq<nat>)
      modifies this`status
      ensures before == old(status) && after == status
      ensures status.healthy == Some(healthy) && status.lastMessage == message
      ensures status.lastChange == if old(status).healthy == Some(healthy) then old(status).lastChange else now
      ensures notified == if old(status).healthy == Some(healthy) then [] else subscribers
      ensures forall w: W.World, t: W.Tid :: t in w.thr && w.thr[t] == W.HUpdate(healthy) ==>
        W.Step(old(In(w)), W.HLock(t)) == Some(In(w).(thr := w.thr[t := W.HSending(notified)]))
    {
      before := status;
      var notify := false;
      if status.healthy.None? || status.healthy.value != healthy {
        notify := true;
        status := status.(healthy := Some(healthy), lastChange := now);
      }
      status := status.(lastMessage := message);
      after := status;
      notified := if notify then subscribers else [];
    }

    method Init(now: int)
      modifies this`status
      ensures status == Status(None, now, "Unknown")
      ensures forall w: W.World :: W.HealthRuns(w.phase) ==> W.Step(old(In(w)), W.HInit) == Some(In(w))
    {
      status := status.(lastMessage := "Unknown");
      status := status.(lastChange := now);
      status := status.(healthy := None);
      forall w: W.World | W.HealthRuns(w.phase) ensures W.Step(old(In(w)), W.HInit) == Some(In(w)) {
        InitStep(old(In(w)));
      }
    }

    method Subscribe(ch: nat)
      modifies this`subscribers
      ensures subscribers == old(subscribers) + [ch]
      ensures forall w: W.World :: w.hc && w.phase.PreSub? && w.h == ch ==>
        W.Step(old(In(w)), W.HealthSubscribe) == Some(In(w).(phase := W.Live, consumer := W.CIdle))
    {
      subscribers := subscribers + [ch];
      forall w: W.World | w.hc && w.phase.PreSub? && w.h == ch
        ensures W.Step(old(In(w)), W.HealthSubscribe) == Some(In(w).(phase := W.Live, consumer := W.CIdle))
      {
        SubscribeStep(old(In(w)));
      }
    }

    method Unsubscribe(ch: nat)
      modifies this`subscribers
      ensures multiset(subscribers) == multiset(old(subscribers))[ch := 0]
      ensures subscribers == SwapDelete(old(subscribers), 0, ch)
      ensures forall w: W.World :: w.h == ch && W.Step(old(In(w)), W.HealthUnsubscribe).Some? ==>
        W.Step(old(In(w)), W.HealthUnsubscribe) == Some(In(w).(phase := W.Unsubbed))
    {
      var i := 0;
      while i < |subscribers|
        invariant i <= |subscribers|
        invariant SwapDelete(subscribers, i, ch) == SwapDelete(old(subscribers), 0, ch)
        decreases |subscribers| - i
      {
        if subscribers[i] == ch {
          subscribers := subscribers[i := subscribers[|subscribers| - 1]];
          subscribers := subscribers[..|subscribers| - 1];
        } else {
          i := i + 1;
        }
      }
      SwapDeleteKeepsOthers(old(subscribers), 0, ch);
    }
  }

  /** The fields that UpdateState, healthUpdate, Subscribe, Unsubscribe and notifyEvent share under the mutex. */
  class ServiceRunner {
    const id: string
    const hc: bool
    const health: HealthState
    const history: ServiceEvents
    var state: SState
    var subscribers: map<Ev, seq<nat>>

    constructor (id: string, hc: bool)
      ensures this.id == id && this.hc == hc && fresh(health) && fresh(history)
      ensures state == Initialized && subscribers == map[] && history.Valid() && history.pushed == []
    {
      this.id, this.hc := id, hc;
      health := new HealthState();
      history := new ServiceEvents();
      state, subscribers := Initialized, map[];
    }

    predicate InStateLocked(ev: Ev)
      reads this, health
    {
      match ev
      case UpEv =>
        (match state
         case Skipped => true
         case Running => !hc || (health.status.healthy.Some? && health.status.healthy.value)
         case _ => false)
      case DownEv =>
        (match state
         case Failed | Finished | Skipped => true
         case _ => false)
      case FinishedEv => state.Finished?
    }

    /** The protocol's state w with the fields of this object. */
    function In(w: W.World): W.World
      reads this, health
    {
      w.(hc := hc, state := state, subs := subscribers, health := health.status.healthy)
    }

    /** isUp, isDown and isFinished, in the order in which UpdateState then notifies. */
    method EventsNow() returns (evs: seq<Ev>)
      ensures evs == Flags(state, hc, health.status.healthy)
      ensures UpEv in evs <==> state == Skipped || (state == Running && (hc ==> health.status.healthy == Some(true)))
      ensures DownEv in evs <==> state == Finished || state == Failed || state == Skipped
      ensures FinishedEv in evs <==> state == Finished
    {
      evs := [];
      if InStateLocked(UpEv) { evs := evs + [UpEv]; }
      if InStateLocked(DownEv) { evs := evs + [DownEv]; }
      if InStateLocked(FinishedEv) { evs := evs + [FinishedEv]; }
    }

    /** UpdateState up to the unlock: what it has recorded, what it goes on to publish and which events it goes on to notify.
        Only a Running state carries a health. */
    method UpdateState(next: SState, message: string) returns (evs: seq<Ev>, event: EventStream.Payload)
      requires history.Valid()
      modifies this`state, history, history.events
      ensures state == next && history.Valid()
      ensures history.events == old(history.events) || fresh(history.events)
      ensures var healthy := if next.Running? then health.status.healthy else None;
        && history.pushed == old(history.pushed) + [ServiceEvent(message, next, healthy)]
        && event == ServiceTable.AsProto(id, next, healthy)
        && ServiceTable.ShownAs(event, id, next == Running, healthy)
      ensures UpEv in evs <==> next == Skipped || (next == Running && (hc ==> health.status.healthy == Some(true)))
      ensures DownEv in evs <==> next == Finished || next == Failed || next == Skipped
      ensures FinishedEv in evs <==> next == Finished
      ensures forall w: W.World, t: W.Tid :: t in w.thr && w.thr[t] == W.UpLocked(next) ==>
        var stored := W.Step(old(In(w)), W.Store(t));
        stored.Some? && W.Step(stored.value, W.ReadFlags(t))
          == Some(In(w).(thr := w.thr[t := W.UpPost(W.Tell(evs))], mu := W.Nobody, phase := stored.value.phase))
    {
      var healthy := None;
      if next == Running {
        healthy := health.status.healthy;
      }
      state := next;
      history.Push(ServiceEvent(message, next, healthy));
      event := ServiceTable.AsProto(id, next, healthy);
      ServiceTable.PublishedUpdate(id, next, healthy);
      evs := EventsNow();
      assert health.status == old(health.status) && subscribers == old(subscribers);
      forall w: W.World, t: W.Tid | t in w.thr && w.thr[t] == W.UpLocked(next)
        ensures var stored := W.Step(old(In(w)), W.Store(t));
          stored.Some? && W.Step(stored.value, W.ReadFlags(t))
            == Some(In(w).(thr := w.thr[t := W.UpPost(W.Tell(evs))], mu := W.Nobody, phase := stored.value.phase))
      {
        UpdateSteps(old(In(w)), t, next);
      }
    }

    /** healthUpdate up to the unlock: nothing while the service is not running. The event has the health of the change, Up
        is judged by the health of the moment. */
    method HealthUpdate(change: Status, message: string) returns (recorded: bool, evs: seq<Ev>, event: EventStream.Payload)
      requires change.healthy.Some? && history.Valid()
      modifies history, history.events
      ensures history.Valid() && (history.events == old(history.events) || fresh(history.events))
      ensures recorded <==> state == Running
      ensures history.pushed
        == old(history.pushed) + if recorded then [ServiceEvent(message, Running, change.healthy)] else []
      ensures recorded ==> event == ServiceTable.AsProto(id, Running, change.healthy)
      ensures recorded ==> ServiceTable.ShownAs(event, id, true, change.healthy)
      ensures evs == if recorded && (hc ==> health.status.healthy == Some(true)) then [UpEv] else []
      ensures forall w: W.World :: w.consumer.CGot? && w.mu.Nobody? ==>
        var locked := W.Step(In(w), W.CLock);
        locked.Some? && if recorded then W.Step(locked.value, W.CEval) == Some(In(w).(consumer := W.CPost(W.Tell(evs))))
                        else locked.value == In(w).(consumer := W.CIdle)
    {
      if state != Running {
        forall w: W.World | w.consumer.CGot? && w.mu.Nobody?
          ensures W.Step(In(w), W.CLock) == Some(In(w).(consumer := W.CIdle))
        {
          ChangeSteps(In(w));
        }
        return false, [], EventStream.Garbage;
      }
      recorded := true;
      history.Push(ServiceEvent(message, state, change.healthy));
      event := ServiceTable.AsProto(id, state, change.healthy);
      ServiceTable.PublishedUpdate(id, state, change.healthy);
      evs := if InStateLocked(UpEv) then [UpEv] else [];
      forall w: W.World | w.consumer.CGot? && w.mu.Nobody?
        ensures var locked := W.Step(In(w), W.CLock);
          locked.Some? && W.Step(locked.value, W.CEval) == Some(In(w).(consumer := W.CPost(W.Tell(evs))))
      {
        ChangeSteps(In(w));
      }
    }

    /** Subscribe up to the unlock: true if ch gets its token at once. */
    method Subscribe(ev: Ev, ch: nat) returns (now: bool)
      modifies this`subscribers
      ensures now <==>
        match ev
        case UpEv => state == Skipped || (state == Running && (hc ==> health.status.healthy == Some(true)))
        case DownEv => state == Finished || state == Failed || state == Skipped
        case FinishedEv => state == Finished
      ensures now ==> subscribers == old(subscribers)
      ensures !now ==> subscribers == old(subscribers)[ev := Of(old(subscribers), ev) + [ch]]
    {
      if InStateLocked(ev) { return true; }
      subscribers := subscribers[ev := Of(subscribers, ev) + [ch]];
      now := false;
    }

    method Unsubscribe(ev: Ev, ch: nat)
      modifies this`subscribers
      ensures subscribers == old(subscribers)[ev := SwapDelete(Of(old(subscribers), ev), 0, ch)]
      ensures multiset(Of(subscribers, ev)) == multiset(Of(old(subscribers), ev))[ch := 0]
      ensures forall e :: e != ev ==> Of(subscribers, e) == Of(old(subscribers), e)
    {
      var channels := Of(subscribers, ev);
      var i := 0;
      while i < |channels|
        invariant i <= |channels|
        invariant SwapDelete(channels, i, ch) == SwapDelete(Of(old(subscribers), ev), 0, ch)
        decreases |channels| - i
      {
        if channels[i] == ch {
          channels := channels[i := channels[|channels| - 1]];
          channels := channels[..|channels| - 1];
        } else {
          i := i + 1;
        }
      }
      subscribers := subscribers[ev := channels];
      SwapDeleteKeepsOthers(Of(old(subscribers), ev), 0, ch);
    }

    /** The locked section of notifyEvent: whoever has this event and then evs to notify goes on to send to its clone of the
        list, and later changes of the list do not touch that. */
    method CloneSubscribers(ev: Ev) returns (channels: seq<nat>)
      ensures channels == Of(subscribers, ev)
      ensures forall w: W.World, evs: seq<Ev> :: w.mu.Nobody? ==>
        W.PostStep(In(w), W.Tell([ev] + evs)) == Some((In(w), W.Sending(ev, channels, evs)))
    {
      channels := Of(subscribers, ev);
      forall w: W.World, evs: seq<Ev> | w.mu.Nobody?
        ensures W.PostStep(In(w), W.Tell([ev] + evs)) == Some((In(w), W.Sending(ev, channels, evs)))
      {
        assert ([ev] + evs)[1..] == evs;
      }
    }
  }
}
