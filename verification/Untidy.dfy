/** Tidiness is exactly what Shutdown needs: from every claim of an id whose earlier goroutine has not exited, tidy steps
    lead to a Shutdown that returns while the child of the claimed service is alive. */
module Untidy {
  import opened Common
  import opened Restart
  import opened ServiceRun
  import opened RunEnds
  import opened Supervisor
  import opened Shutdown
  import opened ShutdownExact

  // ---------------------------------------------------------------------------------------------
  // Ending all goroutines but one

  /** From s to s' goroutines have moved, but no critical section was entered. */
  ghost predicate Moved(s: Sup, s': Sup)
  {
    && |s'.gs| == |s.gs|
    && (forall k :: 0 <= k < |s.gs| ==> s'.gs[k].id == s.gs[k].id)
    && s'.mu == s.mu && s'.terminating == s.terminating && s'.deny == s.deny
    && s'.loaded.Keys == s.loaded.Keys
    && ShutTold(s.shut, s'.shut)
  }

  /** All goroutines before the n-th, except g, have exited; the others are where they were. */
  ghost predicate EndedUpto(s: Sup, s': Sup, n: nat, g: nat)
  {
    forall k :: 0 <= k < |s.gs| && k < |s'.gs| ==> if k < n && k != g then s'.gs[k].run.main.Exited? else s'.gs[k] == s.gs[k]
  }

  lemma {:induction false} DriveOthers(s: Sup, n: nat, g: nat) returns (s': Sup)
    requires Reachable(s) && n <= |s.gs|
    ensures Leads(s, s', false) && Moved(s, s') && EndedUpto(s, s', n, g)
    decreases n
  {
    if n == 0 {
      LeadsNowhere(s, false);
      s' := s;
    } else {
      var m := DriveOthers(s, n - 1, g);
      if n - 1 == g {
        s' := m;
      } else {
        s' := DriveOut(m, n - 1);
        LeadsOn(s, m, s', false);
        ToldTwice(s.shut, m.shut, s'.shut);
      }
    }
  }

  lemma ToldTwice(a: Shut, b: Shut, c: Shut)
    requires ShutTold(a, b) && ShutTold(b, c)
    ensures ShutTold(a, c)
  {
  }

  // ---------------------------------------------------------------------------------------------
  // Start

  /** A run that is on its way to its runner, with nothing gone wrong. */
  predicate Climbing(r: Run) {
    && r == NewRun(r.runner.policy, r.healthChecked).(main := r.main, notified := true)
    && (r.main.Cond? || r.main.Prepare? || r.main.PreFunc? || r.main.Create? || r.main.MakeRunner? || r.main.OpenRunner?)
  }

  lemma SpawnOne(s: Sup) returns (s': Sup)
    requires Reachable(s) && s.mu.Claimed? && s.mu.id in s.loaded
    ensures Leads(s, s', false) && s'.mu == Awaiting(|s.gs|, s.mu.rest)
    ensures |s'.gs| == |s.gs| + 1 && forall k :: 0 <= k < |s.gs| ==> s'.gs[k] == s.gs[k]
    ensures s'.gs[|s.gs|].id == s.mu.id
    ensures s'.gs[|s.gs|].run == NewRun(s.loaded[s.mu.id].policy, s.loaded[s.mu.id].healthChecked)
    ensures s'.gs[|s.gs|].listening
    ensures s'.loaded == s.loaded && s'.terminating == s.terminating && s'.deny == s.deny
  {
    s' := OneStep(s, StartSpawn, false);
  }

  /** The new goroutine records Starting and closes the notify channel. */
  lemma BeginOne(s: Sup, k: nat) returns (s': Sup)
    requires Reachable(s) && k < |s.gs| && s.gs[k].id in s.loaded
    requires s.gs[k].run == NewRun(s.loaded[s.gs[k].id].policy, s.loaded[s.gs[k].id].healthChecked)
    ensures Leads(s, s', false) && OnlyMoved(s, s', k)
    ensures Climbing(s'.gs[k].run) && s'.gs[k].run.main.Cond? && s'.gs[k].listening == s.gs[k].listening
    ensures s'.gs[k].run.runner.policy == s.loaded[s.gs[k].id].policy
    ensures s'.gs[k].run.healthChecked == s.loaded[s.gs[k].id].healthChecked
  {
    var m := OneGo(s, k, Main(No), false);
    s' := OneGo(m, k, Main(No), false);
    LeadsOn(s, m, s', false);
    MovesOn(s, m, s', k);
  }

  /** Start goes on from a claim to the next id: the new goroutine has recorded Starting. */
  lemma StartOne(s: Sup) returns (s': Sup)
    requires Reachable(s) && s.mu.Claimed? && s.mu.id in s.loaded
    ensures Leads(s, s', false)
    ensures s'.mu == Picking(s.mu.rest) && |s'.gs| == |s.gs| + 1
    ensures forall k :: 0 <= k < |s.gs| ==> s'.gs[k] == s.gs[k]
    ensures s'.gs[|s.gs|].id == s.mu.id && Climbing(s'.gs[|s.gs|].run) && s'.gs[|s.gs|].run.main.Cond?
    ensures s'.gs[|s.gs|].listening && s'.gs[|s.gs|].run.runner.policy == s.loaded[s.mu.id].policy
    ensures s'.gs[|s.gs|].run.healthChecked == s.loaded[s.mu.id].healthChecked
    ensures SamePolicies(s.loaded, s'.loaded) && s'.terminating == s.terminating && s'.deny == s.deny
  {
    var a := SpawnOne(s);
    var b := BeginOne(a, |s.gs|);
    s' := OneStep(b, StartNotified, false);
    LeadsOn(s, a, b, false);
    LeadsOn(s, b, s', false);
  }

  // ---------------------------------------------------------------------------------------------
  // The claimed service is on its way, its earlier goroutine in its tail, and nothing else moves

  predicate InTail(m: MainPc) {
    m.Store? || m.Tell?
  }

  ghost predicate Parked(s: Sup, id: Id, g: nat, h: nat)
  {
    && Reachable(s) && g < |s.gs| && h < |s.gs| && g != h
    && s.gs[g].id == id && s.gs[h].id == id && InTail(s.gs[g].run.main)
    && Climbing(s.gs[h].run) && s.gs[h].run.main.Cond?
    && (forall k :: 0 <= k < |s.gs| && k != g && k != h ==> s.gs[k].run.main.Exited?)
    && id in s.loaded && !Closed(s)
  }

  /** Other services have been started and have ended. */
  ghost predicate MoreEnded(s: Sup, s': Sup)
  {
    && |s.gs| <= |s'.gs| && (forall k :: 0 <= k < |s.gs| ==> s'.gs[k] == s.gs[k])
    && s'.loaded.Keys == s.loaded.Keys
  }

  lemma StillStarted(s: Sup, s': Sup, id: Id)
    requires MoreEnded(s, s') && EverStarted(s, id)
    ensures EverStarted(s', id)
  {
    var k :| 0 <= k < |s.gs| && s.gs[k].id == id;
    assert s'.gs[k].id == id;
  }

  /** What the claims say while Start picks. */
  lemma RunningHolds(s: Sup, id: Id)
    requires Reachable(s) && s.mu.Picking?
    ensures id in s.running <==> exists k :: Holds(s, k, id)
  {
    ReachableOk(s);
  }

  lemma HeldIsStarted(s: Sup, id: Id)
    requires exists k :: Holds(s, k, id)
    ensures EverStarted(s, id)
  {
    var k: nat :| Holds(s, k, id);
    assert s.gs[k].id == id;
  }

  /** What was parked stays so if only others have been started, and have ended. */
  lemma ParkedOn(s: Sup, s': Sup, id: Id, g: nat, h: nat)
    requires Parked(s, id, g, h) && Reachable(s') && MoreEnded(s, s') && !Closed(s')
    requires forall k :: |s.gs| <= k < |s'.gs| ==> s'.gs[k].run.main.Exited?
    ensures Parked(s', id, g, h)
  {
  }

  lemma ClaimIsTidy(s: Sup, id: Id, g: nat, h: nat)
    requires Parked(s, id, g, h) && s.mu.Picking? && s.mu.rest != [] && s.mu.rest[0] !in s.running
    ensures Tidy(s, StartNext) && s.mu.rest[0] != id
  {
    RunningHolds(s, id);
    assert Holds(s, h, id);
  }

  /** The next id is claimed, started and brought to its end. */
  lemma ClaimOne(s: Sup, id: Id, g: nat, h: nat) returns (s': Sup)
    requires Parked(s, id, g, h) && s.mu.Picking? && s.mu.rest != []
    requires s.mu.rest[0] in s.loaded && s.mu.rest[0] !in s.running
    ensures Leads(s, s', false) && Parked(s', id, g, h) && MoreEnded(s, s') && s'.mu == Picking(s.mu.rest[1..])
    ensures EverStarted(s', s.mu.rest[0])
  {
    ClaimIsTidy(s, id, g, h);
    var k := |s.gs|;
    var a := OneStep(s, StartNext, false);
    var b := StartOne(a);
    s' := DriveOut(b, k);
    LeadsOn(s, a, b, false);
    LeadsOn(s, b, s', false);
    ParkedOn(s, s', id, g, h);
    assert s'.gs[k].id == s.mu.rest[0];
  }

  lemma SkipOne(s: Sup, id: Id, g: nat, h: nat) returns (s': Sup)
    requires Parked(s, id, g, h) && s.mu.Picking? && s.mu.rest != []
    requires s.mu.rest[0] !in s.loaded || s.mu.rest[0] in s.running
    ensures Leads(s, s', false) && Parked(s', id, g, h) && MoreEnded(s, s') && s'.mu == Picking(s.mu.rest[1..])
    ensures s'.gs == s.gs
  {
    s' := OneStep(s, StartNext, false);
    ParkedOn(s, s', id, g, h);
  }

  /** One turn of the loop of Start, with the service that it starts brought to its end at once. */
  lemma NextOne(s: Sup, id: Id, g: nat, h: nat) returns (s': Sup)
    requires Parked(s, id, g, h) && s.mu.Picking? && s.mu.rest != []
    ensures Leads(s, s', false) && Parked(s', id, g, h) && MoreEnded(s, s') && s'.mu == Picking(s.mu.rest[1..])
    ensures s.mu.rest[0] in s.loaded ==> EverStarted(s', s.mu.rest[0])
  {
    var next := s.mu.rest[0];
    if next in s.loaded && next !in s.running {
      s' := ClaimOne(s, id, g, h);
    } else {
      s' := SkipOne(s, id, g, h);
      if next in s.running {
        RunningHolds(s, next);
        HeldIsStarted(s, next);
        StillStarted(s, s', next);
      }
    }
  }

  lemma FirstOrRest(ids: seq<Id>, id: Id)
    requires id in ids
    ensures id == ids[0] || id in ids[1..]
  {
  }

  lemma {:induction false} FinishLoop(s: Sup, id: Id, g: nat, h: nat) returns (s': Sup)
    requires Parked(s, id, g, h) && s.mu.Picking?
    ensures Leads(s, s', false) && Parked(s', id, g, h) && MoreEnded(s, s') && s'.mu == Picking([])
    ensures forall j :: j in s.mu.rest && j in s.loaded ==> EverStarted(s', j)
    decreases |s.mu.rest|
  {
    if s.mu.rest == [] {
      LeadsNowhere(s, false);
      s' := s;
    } else {
      var m := NextOne(s, id, g, h);
      s' := FinishLoop(m, id, g, h);
      LeadsOn(s, m, s', false);
      forall j | j in s.mu.rest && j in s.loaded ensures EverStarted(s', j) {
        FirstOrRest(s.mu.rest, j);
        if j == s.mu.rest[0] {
          StillStarted(m, s', j);
        }
      }
    }
  }

  lemma {:induction false} ListOf(ids: set<Id>) returns (list: seq<Id>)
    ensures forall id :: id in list <==> id in ids
  {
    if ids == {} {
      list := [];
    } else {
      var id :| id in ids;
      list := ListOf(ids - {id});
      list := list + [id];
    }
  }

  /** The Start that made the claim returns, and one more Start brings every other service to its end. */
  lemma StartAll(s: Sup, id: Id, g: nat, h: nat) returns (s': Sup)
    requires Parked(s, id, g, h) && s.mu.Picking?
    ensures Leads(s, s', false) && Parked(s', id, g, h) && s'.mu.Free? && s'.loaded.Keys == s.loaded.Keys
    ensures forall j :: j in s'.loaded ==> EverStarted(s', j)
  {
    var a := FinishLoop(s, id, g, h);
    var b := OneStep(a, StartEnd, false);
    var list := ListOf(s.loaded.Keys);
    var c := OneStep(b, StartCall(list), false);
    ParkedOn(a, c, id, g, h);
    var d := FinishLoop(c, id, g, h);
    s' := OneStep(d, StartEnd, false);
    ParkedOn(d, s', id, g, h);
    LeadsOn(s, a, b, false);
    LeadsOn(s, b, c, false);
    LeadsOn(s, c, d, false);
    LeadsOn(s, d, s', false);
    forall j | j in s'.loaded ensures EverStarted(s', j) {
      StillStarted(d, s', j);
    }
  }

  // ---------------------------------------------------------------------------------------------
  // The child of the claimed service

  function ClimbChoice(m: MainPc): Choice {
    if m.Cond? then No else Yes
  }

  lemma ClimbStep(r: Run, cur: SState)
    requires Climbing(r)
    ensures RunStep(r, Main(ClimbChoice(r.main)), cur).Some?
    ensures var r' := RunStep(r, Main(ClimbChoice(r.main)), cur).value;
      && MainRank(r'.main) < MainRank(r.main)
      && if r.main.OpenRunner? then r' == r.(main := Select, spawned := true) else Climbing(r')
  {
  }

  lemma {:induction false} Climb(s: Sup, h: nat) returns (s': Sup)
    requires Reachable(s) && h < |s.gs| && Climbing(s.gs[h].run)
    ensures Leads(s, s', false) && OnlyMoved(s, s', h)
    ensures s'.gs[h].run == NewRun(s.gs[h].run.runner.policy, s.gs[h].run.healthChecked).(main := Select, notified := true,
                                                                                      spawned := true)
    decreases MainRank(s.gs[h].run.main)
  {
    var r := s.gs[h].run;
    Known(s, h);
    ClimbStep(r, s.loaded[s.gs[h].id].state);
    var m := OneGo(s, h, Main(ClimbChoice(r.main)), false);
    if r.main.OpenRunner? {
      s' := m;
    } else {
      s' := Climb(m, h);
      LeadsOn(s, m, s', false);
      MovesOn(s, m, s', h);
    }
  }

  predicate HasChild(G: Gor) {
    PcChild(G.run.runner.pc) == Alive
  }

  /** Nothing goes wrong, and the child is started. */
  lemma ChildUp(s: Sup, h: nat) returns (s': Sup)
    requires Reachable(s) && h < |s.gs| && Climbing(s.gs[h].run)
    ensures Leads(s, s', false) && OnlyMoved(s, s', h) && HasChild(s'.gs[h])
  {
    var m := Climb(s, h);
    Known(m, h);
    s' := OneGo(m, h, Child(Env(false, true, Option.None, false, false, false)), false);
    LeadsOn(s, m, s', false);
    MovesOn(s, m, s', h);
  }

  // ---------------------------------------------------------------------------------------------
  // The end

  /** The claim is made, every other goroutine is brought to its end, and the claimed service is started. */
  lemma ParkFrom(s: Sup, id: Id, g: nat) returns (s': Sup)
    requires Reachable(s) && s.mu.Claimed? && s.mu.id == id && g < |s.gs| && s.gs[g].id == id && InTail(s.gs[g].run.main)
    requires !Closed(s) && id in s.loaded
    ensures Leads(s, s', false) && Parked(s', id, g, |s.gs|) && s'.mu.Picking?
  {
    var m := DriveOthers(s, |s.gs|, g);
    s' := StartOne(m);
    LeadsOn(s, m, s', false);
  }

  /** The earlier goroutine stores its terminal state, if it has not yet. */
  lemma ToTell(s: Sup, g: nat) returns (s': Sup)
    requires Reachable(s) && g < |s.gs| && InTail(s.gs[g].run.main)
    ensures Leads(s, s', false) && OnlyMoved(s, s', g) && s'.gs[g].run.main.Tell?
  {
    if s.gs[g].run.main.Tell? {
      LeadsNowhere(s, false);
      s' := s;
    } else {
      Known(s, g);
      s' := OneGo(s, g, Main(No), false);
    }
  }

  /** Telling the waiters of its id ends the wait for it, if it is registered. */
  lemma TellOne(s: Sup, g: nat) returns (s': Sup)
    requires Reachable(s) && g < |s.gs| && s.gs[g].run.main.Tell?
    requires s.shut.Waits? && s.gs[g].id in s.shut.waits
    ensures Leads(s, s', false) && OnlyMoved(s, s', g) && s'.shut.Waits?
    ensures s.shut.waits[s.gs[g].id].Registered? ==> s'.shut.waits[s.gs[g].id].Woken?
  {
    Known(s, g);
    s' := OneGo(s, g, Main(No), false);
  }

  /** Shutdown is called, sends its tokens and begins its waits: over are those for services that are down. */
  lemma CallAndWait(s: Sup) returns (s': Sup)
    requires Reachable(s) && s.mu.Free? && !s.terminating
    ensures Leads(s, s', false) && s'.gs == s.gs && s'.shut.Waits? && s'.shut.waits.Keys == s.loaded.Keys
    ensures forall j :: j in s.loaded ==> s'.shut.waits[j] == if Down(s.loaded[j].state) then Woken else Registered
  {
    var a := OneStep(s, ShutdownCall, false);
    s' := SendAndWait(a, false);
    LeadsOn(s, a, s', false);
  }

  lemma AllTold(s: Sup, s': Sup, g: nat)
    requires OnlyMoved(s, s', g) && s.shut.Waits? && s'.shut.Waits?
    requires forall j :: j in s.shut.waits && j != s.gs[g].id ==> s.shut.waits[j].Woken?
    requires s.gs[g].id in s.shut.waits
    requires s.shut.waits[s.gs[g].id].Woken? || s'.shut.waits[s.gs[g].id].Woken?
    ensures forall j :: j in s'.shut.waits ==> s'.shut.waits[j].Woken?
  {
  }

  /** With all services but id down and a goroutine of id about to tell, Shutdown runs to its end. */
  lemma StopAll(s: Sup, id: Id, g: nat) returns (s': Sup)
    requires Reachable(s) && s.mu.Free? && !s.terminating && id in s.loaded
    requires g < |s.gs| && s.gs[g].id == id && s.gs[g].run.main.Tell?
    requires forall j :: j in s.loaded && j != id ==> Down(s.loaded[j].state)
    ensures Leads(s, s', false) && s'.shut.Stopped? && |s'.gs| == |s.gs|
    ensures forall k :: 0 <= k < |s.gs| && k != g ==> s'.gs[k] == s.gs[k]
  {
    var b := CallAndWait(s);
    var c := TellOne(b, g);
    AllTold(b, c, g);
    s' := OneStep(c, WaitEnd, false);
    LeadsOn(s, b, c, false);
    LeadsOn(s, c, s', false);
  }

  /** A service that was started, and whose goroutines have all exited, is down. */
  lemma EndedIsDown(s: Sup, j: Id)
    requires Reachable(s) && j in s.loaded && EverStarted(s, j)
    requires forall k :: 0 <= k < |s.gs| && s.gs[k].id == j ==> s.gs[k].run.main.Exited?
    ensures Down(s.loaded[j].state)
  {
    ReachableOk(s);
    assert AllStored(s, j);
  }

  /** From the parked state to a Shutdown that has returned, with the child of h alive. */
  lemma StopParked(s: Sup, id: Id, g: nat, h: nat) returns (s': Sup)
    requires Parked(s, id, g, h) && s.mu.Free?
    requires forall j :: j in s.loaded ==> EverStarted(s, j)
    ensures Leads(s, s', false) && s'.shut.Stopped? && h < |s'.gs| && HasChild(s'.gs[h])
  {
    forall j | j in s.loaded && j != id ensures Down(s.loaded[j].state) {
      EndedIsDown(s, j);
    }
    var a := ChildUp(s, h);
    var b := ToTell(a, g);
    s' := StopAll(b, id, g);
    LeadsOn(s, a, b, false);
    LeadsOn(s, b, s', false);
  }

  /** Where an untidy claim finds its earlier goroutine: past its claim, and not at its end. */
  lemma UntidyTail(s: Sup) returns (g: nat)
    requires Reachable(s) && !Tidy(s, StartNext)
    ensures Claims(s, StartNext).Some? && s.mu.Picking? && s.mu.rest != [] && !Closed(s)
    ensures g < |s.gs| && s.gs[g].id == Claims(s, StartNext).value && InTail(s.gs[g].run.main)
  {
    ReachableOk(s);
    g :| 0 <= g < |s.gs| && s.gs[g].id == s.mu.rest[0] && !Exiting(s.gs[g]);
    assert Holding(s.gs[g].run.main) ==> Holds(s, g, s.mu.rest[0]);
  }

  /** Every untidy claim is unsafe: whatever the services, their policies and their goroutines, tidy steps lead from it to
      a Shutdown whose wait has returned nil while the child of the claimed service is alive. */
  lemma UntidyClaimIsUnsafe(s: Sup) returns (s': Sup, h: nat)
    requires Reachable(s) && !Tidy(s, StartNext)
    ensures Step(s, StartNext).Some? && Leads(Step(s, StartNext).value, s', false)
    ensures s'.shut.Stopped? && h < |s'.gs| && HasChild(s'.gs[h]) && !Reaped(s'.gs[h])
  {
    var g := UntidyTail(s);
    var id := Claims(s, StartNext).value;
    var a := Step(s, StartNext).value;
    ReachStep(s, StartNext);
    var b := ParkFrom(a, id, g);
    h := |s.gs|;
    var c := StartAll(b, id, g, h);
    s' := StopParked(c, id, g, h);
    LeadsOn(a, b, c, false);
    LeadsOn(a, c, s', false);
  }

  // ---------------------------------------------------------------------------------------------
  // A run with an untidy claim

  /** a is loaded as a service without a health check, and nothing else is. */
  lemma LoadOne(a: Id, policy: Policy) returns (s: Sup)
    ensures Leads(Empty(), s, false)
    ensures s == Empty().(loaded := map[a := Svc(0, policy, false, Initialized, false)])
  {
    var services := [Service(a, policy, false)];
    var none: map<Id, Svc> := map[];
    assert services[..0] == [] && LoadAll(none, services[..0]) == none && |none| == 0;
    assert Exec(Step, Empty(), []) == Some(Empty());
    s := OneStep(Empty(), Load(services), false);
  }

  /** Start(a) up to its return, tidy or not. */
  lemma StartAnyway(s: Sup, a: Id) returns (s': Sup)
    requires Reachable(s) && s.mu.Free? && !Closed(s) && a in s.loaded && a !in s.running
    ensures Reachable(s') && s'.mu.Free? && !Closed(s') && s'.loaded.Keys == s.loaded.Keys && |s'.gs| == |s.gs| + 1
    ensures forall k :: 0 <= k < |s.gs| ==> s'.gs[k] == s.gs[k]
    ensures var G := s'.gs[|s.gs|]; G.id == a && Climbing(G.run) && G.run.main.Cond?
  {
    var b := OneStep(s, StartCall([a]), false);
    assert [a][1..] == [];
    ReachStep(b, StartNext);
    var c := StartOne(Step(b, StartNext).value);
    s' := OneStep(c, StartEnd, false);
  }

  predicate Failing(r: Run) {
    !r.ctxDone && (r.main.Cond? || r.main.Prepare? || r.main.PreFunc? || r.main.Returned?)
  }

  lemma FailStep(r: Run, cur: SState)
    requires Failing(r)
    ensures RunStep(r, Main(No), cur).Some?
    ensures var r' := RunStep(r, Main(No), cur).value;
      (Failing(r') && MainRank(r'.main) < MainRank(r.main)) || (r'.ctxDone && r'.main.Deleting?)
  {
  }

  /** The first stage of the run of g fails, and Run returns. */
  lemma {:induction false} FailToDelete(s: Sup, g: nat) returns (s': Sup)
    requires Reachable(s) && g < |s.gs| && Failing(s.gs[g].run) && s.gs[g].id in s.loaded
    ensures Leads(s, s', false) && OnlyMoved(s, s', g)
    ensures s'.gs[g].run.main.Deleting? && s'.gs[g].run.ctxDone && s'.gs[g].listening == s.gs[g].listening
    decreases MainRank(s.gs[g].run.main)
  {
    FailStep(s.gs[g].run, s.loaded[s.gs[g].id].state);
    var m := OneGo(s, g, Main(No), false);
    if m.gs[g].run.ctxDone {
      s' := m;
    } else {
      s' := FailToDelete(m, g);
      MovesOn(s, m, s', g);
      LeadsOn(s, m, s', false);
    }
  }

  lemma DeleteStep(s: Sup, g: nat)
    requires g < |s.gs| && s.gs[g].run.main.Deleting? && s.gs[g].id in s.loaded
    ensures GoStep(s, g, Main(No)).Some?
    ensures GoStep(s, g, Main(No)).value.running == s.running - {s.gs[g].id}
    ensures RunStep(s.gs[g].run, Main(No), s.loaded[s.gs[g].id].state).value.main.Store?
  {
  }

  lemma DeleteClaim(s: Sup, g: nat) returns (s': Sup)
    requires Reachable(s) && g < |s.gs| && s.gs[g].run.main.Deleting? && s.gs[g].id in s.loaded
    ensures Leads(s, s', false) && OnlyMoved(s, s', g) && s'.gs[g].run.main.Store? && s.gs[g].id !in s'.running
  {
    DeleteStep(s, g);
    s' := OneGo(s, g, Main(No), false);
  }

  /** The goroutine has removed its claim, and has yet to store its terminal state. */
  lemma FailToStore(s: Sup, g: nat) returns (s': Sup)
    requires Reachable(s) && g < |s.gs| && Failing(s.gs[g].run) && s.gs[g].id in s.loaded
    ensures Leads(s, s', false) && OnlyMoved(s, s', g) && s'.gs[g].run.main.Store? && s.gs[g].id !in s'.running
  {
    var m := FailToDelete(s, g);
    s' := DeleteClaim(m, g);
    MovesOn(s, m, s', g);
    LeadsOn(s, m, s', false);
  }

  /** For any id, a run with one untidy claim: the first goroutine of a has given up its claim but not yet stored Failed when
      a is started again. Then Failed is stored, and Shutdown takes it for the second run: its wait returns nil
      while the child of the second run is alive. */
  lemma StaleTerminalState(a: Id) returns (run: seq<Label>, s: Sup)
    ensures Exec(Step, Empty(), run) == Some(s) && s.shut.Stopped?
    ensures |s.gs| == 2 && PcChild(s.gs[1].run.runner.pc) == Alive && !Reaped(s.gs[1])
  {
    var b := LoadOne(a, Once);
    var c := StartAnyway(b, a);
    var d := FailToStore(c, 0);
    var e := StartAnyway(d, a);
    var f := ChildUp(e, 1);
    var h := ToTell(f, 0);
    s := StopAll(h, a, 0);
    run :| Exec(Step, Empty(), run) == Some(s);
  }

  // ---------------------------------------------------------------------------------------------
  // The exact condition

  /** Every Shutdown that tidy steps from s complete has reaped all children. */
  ghost predicate SafeFrom(s: Sup)
  {
    forall s' :: Leads(s, s', false) && s'.shut.Stopped? ==> forall k :: 0 <= k < |s'.gs| ==> Reaped(s'.gs[k])
  }

  /** Tidiness is the exact condition, claim by claim: after a tidy run, the next claim keeps Shutdown safe if and only if no
      goroutine of its id is still in its tail. */
  lemma TidinessIsExact(run: seq<Label>)
    requires Exec(TidyStep, Empty(), run).Some? && Claims(Exec(TidyStep, Empty(), run).value, StartNext).Some?
    ensures var s := Exec(TidyStep, Empty(), run).value;
      Step(s, StartNext).Some? && (Tidy(s, StartNext) <==> SafeFrom(Step(s, StartNext).value))
  {
    var s := Exec(TidyStep, Empty(), run).value;
    TidyIsReachable(run);
    if Tidy(s, StartNext) {
      forall s' | Leads(Step(s, StartNext).value, s', false) && s'.shut.Stopped?
        ensures forall k :: 0 <= k < |s'.gs| ==> Reaped(s'.gs[k])
      {
        TidyIsSafe(run, s');
      }
    } else {
      var s', h := UntidyClaimIsUnsafe(s);
    }
  }

  lemma {:induction false} TidyIsReachable(run: seq<Label>)
    requires Exec(TidyStep, Empty(), run).Some?
    ensures Reachable(Exec(TidyStep, Empty(), run).value)
  {
    if run == [] {
      assert Exec(Step, Empty(), []) == Some(Empty());
    } else {
      TidyIsReachable(run[..|run| - 1]);
      ReachStep(Exec(TidyStep, Empty(), run[..|run| - 1]).value, Last(run));
    }
  }

  lemma TidyIsSafe(run: seq<Label>, s': Sup)
    requires Exec(TidyStep, Empty(), run).Some?
    requires TidyStep(Exec(TidyStep, Empty(), run).value, StartNext).Some?
    requires Leads(TidyStep(Exec(TidyStep, Empty(), run).value, StartNext).value, s', false) && s'.shut.Stopped?
    ensures forall k :: 0 <= k < |s'.gs| ==> Reaped(s'.gs[k])
  {
    var s := Exec(TidyStep, Empty(), run).value;
    var a := TidyStep(s, StartNext).value;
    var more :| Exec(TidyStep, a, more) == Some(s');
    assert (run + [StartNext])[..|run + [StartNext]| - 1] == run;
    assert Exec(TidyStep, Empty(), run + [StartNext]) == Some(a);
    ExecConcat(TidyStep, Empty(), run + [StartNext], more);
    ShutdownIsSafe(run + [StartNext] + more, []);
  }
}
