/** The singleton of system.go with its two maps and flags. Its critical sections are the steps of the state machine in
    Supervisor: each method that takes part in it says which step of the machine it is. */
module ServicesTable {
  import opened Common
  import opened Restart
  import opened ServiceRun
  import opened Supervisor

  datatype ClaimResult = Undefined | AlreadyRunning | ToStart

  function Ids(services: seq<Service>): seq<Id>
  {
    if services == [] then [] else Ids(services[..|services| - 1]) + [Last(services).id]
  }

  /** What Start claims, and what is in running in the end; before it looks at ids[i], goroutines have removed ended[i]. */
  function Picks(loaded: set<Id>, running: set<Id>, ids: seq<Id>, ended: seq<set<Id>>): (seq<Id>, set<Id>)
    requires |ended| == |ids|
  {
    if ids == [] then ([], running)
    else
      var n := |ids| - 1;
      var p := Picks(loaded, running, ids[..n], ended[..n]);
      var now := p.1 - ended[n];
      if ids[n] in loaded && ids[n] !in now then (p.0 + [ids[n]], now + {ids[n]}) else (p.0, now)
  }

  /** One more turn of the loop of Start. */
  lemma PicksMore(loaded: set<Id>, running: set<Id>, ids: seq<Id>, ended: seq<set<Id>>, i: nat)
    requires |ended| == |ids| && i < |ids|
    ensures var p := Picks(loaded, running, ids[..i], ended[..i]);
      var now := p.1 - ended[i];
      Picks(loaded, running, ids[..i + 1], ended[..i + 1])
        == if ids[i] in loaded && ids[i] !in now then (p.0 + [ids[i]], now + {ids[i]}) else (p.0, now)
    ensures forall id :: id in ids[..i + 1] <==> id in ids[..i] || id == ids[i]
  {
    TakeMore(ids, i);
    TakeMore(ended, i);
  }

  /** Start claims only loaded services. An id is never claimed twice unless a goroutine of it ended in between: if
      nothing ends meanwhile, the claims are distinct, were not running, and are what is added to running -- exactly
      the loaded ones among ids that were not running. */
  lemma {:induction false} PicksAreFree(loaded: set<Id>, running: set<Id>, ids: seq<Id>, ended: seq<set<Id>>)
    requires |ended| == |ids|
    ensures var p := Picks(loaded, running, ids, ended);
      && (forall id :: id in p.0 ==> id in loaded && id in ids)
      && (forall id :: id in p.1 ==> id in running || id in p.0)
      && ((forall i :: 0 <= i < |ended| ==> ended[i] == {}) ==>
            && Distinct(p.0)
            && (forall id :: id in p.0 <==> id in ids && id in loaded && id !in running)
            && (forall id :: id in p.1 <==> id in running || id in p.0))
  {
    if ids != [] {
      var n := |ids| - 1;
      PicksAreFree(loaded, running, ids[..n], ended[..n]);
      assert ids == ids[..n] + [ids[n]];
    }
  }

  /** The table with a stop token for each of ids. */
  function WithTokens(table: map<Id, Svc>, ids: set<Id>): map<Id, Svc>
  {
    map id | id in table :: if id in ids then table[id].(stop := true) else table[id]
  }

  class Services {
    var state: map<Id, Svc>
    var running: set<Id>
    var wg: int
    var denyNewServices: bool
    var terminating: bool

    constructor ()
      ensures state == map[] && running == {} && wg == 0 && !denyNewServices && !terminating
    {
      state, running, wg, denyNewServices, terminating := map[], {}, 0, false, false;
    }

    /** The machine's state s with the fields of this object. */
    function In(s: Sup): Sup
      reads this
    {
      s.(loaded := state, running := running, wg := wg, deny := denyNewServices, terminating := terminating)
    }

    method Load(services: seq<Service>) returns (ids: seq<Id>)
      modifies this`state
      ensures forall s: Sup :: s.mu.Free? ==> Step(old(In(s)), Supervisor.Load(services)) == Some(In(s))
      ensures ids == if terminating || denyNewServices then [] else Ids(services)
    {
      ids := [];
      if terminating || denyNewServices { return; }
      for i := 0 to |services|
        invariant state == LoadAll(old(state), services[..i]) && ids == Ids(services[..i])
      {
        TakeMore(services, i);
        var service := services[i];
        ids := ids + [service.id];
        if service.id in state { continue; }
        state := state[service.id := Svc(|state|, service.policy, service.healthChecked, Initialized, false)];
      }
      TakeAll(services);
    }

    /** The check and the claim of one id, under runningMu. */
    method Claim(id: Id) returns (result: ClaimResult)
      modifies this`running
      ensures result == if id !in state then Undefined else if id in old(running) then AlreadyRunning else ToStart
      ensures running == if result.ToStart? then old(running) + {id} else old(running)
      ensures forall s: Sup :: s.mu.Picking? && s.mu.rest != [] && s.mu.rest[0] == id ==>
        var mu := if result.ToStart? then Claimed(id, s.mu.rest[1..]) else Picking(s.mu.rest[1..]);
        Step(old(In(s)), StartNext) == Some(In(s.(mu := mu)))
    {
      if id !in state { return Undefined; }
      var isRunning := id in running;
      if !isRunning {
        running := running + {id};
      }
      result := if isRunning then AlreadyRunning else ToStart;
    }

    /** wg.Add and the go statement; the machine's goroutine is a fresh run of the service's runner. */
    method Spawn(id: Id)
      requires id in state
      modifies this`wg
      ensures wg == old(wg) + 1
      ensures forall s: Sup :: s.mu.Claimed? && s.mu.id == id ==>
        var svc := state[id];
        Step(old(In(s)), StartSpawn)
          == Some(In(s.(mu := Awaiting(|s.gs|, s.mu.rest),
                        gs := s.gs + [Gor(id, NewRun(svc.policy, svc.healthChecked), true)])))
    {
      wg := wg + 1;
    }

    /** The goroutines' deletes that happen while Start waits for runNotify. */
    method Release(ids: set<Id>)
      modifies this`running
      ensures running == old(running) - ids
    {
      running := running - ids;
    }

    /** Start; ended[i] is what goroutines remove from running before it looks at ids[i]. Reports an error for an undefined id. */
    method Start(ids: seq<Id>, ended: seq<set<Id>>) returns (claimed: seq<Id>, undefined: bool)
      requires |ended| == |ids|
      modifies this`running, this`wg
      ensures terminating || denyNewServices ==>
        claimed == [] && !undefined && running == old(running) && wg == old(wg)
      ensures !terminating && !denyNewServices ==>
        && (claimed, running) == Picks(state.Keys, old(running), ids, ended)
        && (undefined <==> exists id :: id in ids && id !in state)
        && wg == old(wg) + |claimed|
    {
      claimed, undefined := [], false;
      if terminating || denyNewServices { return; }
      for i := 0 to |ids|
        invariant (claimed, running) == Picks(state.Keys, old(running), ids[..i], ended[..i])
        invariant undefined <==> exists id :: id in ids[..i] && id !in state
        invariant wg == old(wg) + |claimed|
      {
        PicksMore(state.Keys, old(running), ids, ended, i);
        Release(ended[i]);
        var result := Claim(ids[i]);
        match result {
          case Undefined => undefined := true;
          case AlreadyRunning =>
          case ToStart =>
            Spawn(ids[i]);
            claimed := claimed + [ids[i]];
        }
      }
      TakeAll(ids);
      TakeAll(ended);
    }

    method DenyNewServices()
      modifies this`denyNewServices
      ensures forall s: Sup :: s.mu.Free? ==> Step(old(In(s)), Deny) == Some(In(s))
    {
      denyNewServices := true;
    }

    /** The part of stopServices under the mutex: every service for None, else the loaded ones among the given. */
    method ServicesToStop(services: Option<seq<Id>>) returns (servicesToStop: map<Id, Svc>)
      ensures forall id :: id in servicesToStop <==> id in state && (services.Some? ==> id in services.value)
      ensures forall id :: id in servicesToStop ==> servicesToStop[id] == state[id]
    {
      if services.None? {
        servicesToStop := state;
      } else {
        servicesToStop := map[];
        for i := 0 to |services.value|
          invariant forall id :: id in servicesToStop <==> id in state && id in services.value[..i]
          invariant forall id :: id in servicesToStop ==> servicesToStop[id] == state[id]
        {
          TakeMore(services.value, i);
          var name := services.value[i];
          if name !in state { continue; }
          servicesToStop := servicesToStop[name := state[name]];
        }
        TakeAll(services.value);
      }
    }

    /** Shutdown up to the unlock; done if it was called before. What it goes on to stop is what the machine then waits for. */
    method Shutdown() returns (done: bool, servicesToStop: map<Id, Svc>)
      modifies this`terminating
      ensures done == old(terminating)
      ensures forall s: Sup :: s.mu.Free? ==>
        Step(old(In(s)), ShutdownCall)
          == Some(In(if done then s else s.(shut := Waits(map id | id in servicesToStop :: Unsent))))
    {
      if terminating {
        return true, map[];
      }
      terminating := true;
      servicesToStop := ServicesToStop(None);
      done := false;
      assert forall s: Sup :: (map id | id in servicesToStop :: Unsent) == (map id | id in In(s).loaded :: Unsent);
    }

    /** svcrunner.Shutdown: the send to the one-slot stopCh, which finds room or a token that is there already. */
    method SendToken(id: Id)
      requires id in state
      modifies this`state
      ensures state == old(state)[id := old(state)[id].(stop := true)]
      ensures forall s: Sup :: Step(old(In(s)), StopToken(id)) == Some(In(s))
      ensures forall s: Sup :: s.shut.Waits? && id in s.shut.waits && s.shut.waits[id].Unsent? ==>
        Step(old(In(s)), ShutdownSend(id)) == Some(In(s.(shut := Waits(s.shut.waits[id := Sent]))))
    {
      state := state[id := state[id].(stop := true)];
    }

    /** The goroutines that stopServices starts, in any order, and waits for before it waits for the services. */
    method SendTokens(ids: set<Id>)
      requires ids <= state.Keys
      modifies this`state
      ensures state == WithTokens(old(state), ids)
    {
      var left := ids;
      while left != {}
        invariant left <= ids && state == WithTokens(old(state), ids - left)
        decreases |left|
      {
        var id :| id in left;
        SendToken(id);
        left := left - {id};
      }
      assert ids - left == ids;
    }

    /** Stop up to its wait: nothing for no ids, or once terminating; else a token for each loaded one of the ids and
        for no other, and these are waited for. */
    method Stop(ids: seq<Id>) returns (done: bool, waitFor: set<Id>)
      modifies this`state
      ensures done <==> ids == [] || terminating
      ensures forall id :: id in waitFor <==> !done && id in state && id in ids
      ensures state == WithTokens(old(state), waitFor)
    {
      waitFor := {};
      if |ids| == 0 || terminating {
        return true, {};
      }
      done := false;
      var servicesToStop := ServicesToStop(Some(ids));
      waitFor := servicesToStop.Keys;
      SendTokens(waitFor);
    }
  }
}
