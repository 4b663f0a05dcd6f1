/** When the wait of Shutdown returns nil, every child that was ever started has been reaped, and no child is
    started any more -- as long as no service is started again while an earlier goroutine of it is still in its tail.
    Untidy shows that this condition is exact. */
module Shutdown {
  import opened Common
  import opened Restart
  import opened ServiceRun
  import opened Supervisor

  predicate Exiting(G: Gor) {
    G.run.main.Exited?
  }

  /** The id that this step is about to claim. */
  function Claims(s: Sup, l: Label): Option<Id>
  {
    if l.StartNext? && s.mu.Picking? && s.mu.rest != [] && s.mu.rest[0] in s.loaded && s.mu.rest[0] !in s.running
    then Some(s.mu.rest[0]) else None
  }

  /** No id is claimed while a goroutine of it has not exited. */
  ghost predicate Tidy(s: Sup, l: Label)
  {
    Claims(s, l).Some? ==> forall g :: 0 <= g < |s.gs| && s.gs[g].id == Claims(s, l).value ==> Exiting(s.gs[g])
  }

  ghost function TidyStep(s: Sup, l: Label): Option<Sup> {
    if Tidy(s, l) then Step(s, l) else None
  }

  /** No wait of Shutdown is under way while a token is still to be sent. */
  ghost predicate SendsFirst(shut: Shut)
  {
    shut.Waits? ==>
      forall id, other :: id in shut.waits && other in shut.waits && (shut.waits[id].Registered? || shut.waits[id].Woken?) ==>
        !shut.waits[other].Unsent?
  }

  lemma SendsFirstStep(s: Sup, l: Label)
    requires SendsFirst(s.shut) && Step(s, l).Some?
    ensures SendsFirst(Step(s, l).value.shut)
  {
  }

  /** In every reachable state: all stop tokens are sent before any service is waited for. */
  lemma TokensBeforeWaits(run: seq<Label>)
    requires Exec(Step, Empty(), run).Some?
    ensures SendsFirst(Exec(Step, Empty(), run).value.shut)
  {
    forall s: Sup, l | SendsFirst(s.shut) && Step(s, l).Some? ensures SendsFirst(Step(s, l).value.shut) {
      SendsFirstStep(s, l);
    }
    InvariantHolds(Step, (s: Sup) => SendsFirst(s.shut), Empty(), run);
  }

  predicate WokenFor(shut: Shut, id: Id)
  {
    (shut.Waits? && id in shut.waits && shut.waits[id].Woken?) || (shut.Stopped? && id in shut.targets)
  }

  /** Run has its result, and will record nothing but terminal states. */
  predicate Late(m: MainPc) {
    m.PostTell? || m.Returned? || m.Deleting? || m.Store? || m.Tell? || m.Exited?
  }

  /** Every goroutine of id is late in its run; spawning admits the one that Start has just spawned. */
  ghost predicate AllOver(s: Sup, id: Id, spawning: bool)
  {
    forall g :: 0 <= g < |s.gs| && s.gs[g].id == id ==>
      Late(s.gs[g].run.main) || (spawning && s.mu.Awaiting? && s.mu.g == g && s.gs[g].run.main.Begin?)
  }

  ghost predicate OneAtATime(s: Sup)
  {
    && (forall g, h :: 0 <= g < h < |s.gs| && s.gs[g].id == s.gs[h].id ==> Exiting(s.gs[g]) || Exiting(s.gs[h]))
    && (s.mu.Claimed? ==> forall g :: 0 <= g < |s.gs| && s.gs[g].id == s.mu.id ==> Exiting(s.gs[g]))
  }

  ghost predicate DownMeansOver(s: Sup)
  {
    forall id :: id in s.loaded && Down(s.loaded[id].state) ==> AllOver(s, id, true)
  }

  ghost predicate WokenMeansOver(s: Sup)
  {
    forall id :: WokenFor(s.shut, id) ==> AllOver(s, id, false)
  }

  ghost predicate Targets(s: Sup)
  {
    && (!s.shut.NotCalled? ==> s.terminating)
    && (s.shut.Waits? ==> s.shut.waits.Keys == s.loaded.Keys)
    && (s.shut.Stopped? ==> s.shut.targets == s.loaded.Keys)
  }

  ghost predicate SafeInv(s: Sup)
  {
    TableInv(s) && OneAtATime(s) && DownMeansOver(s) && WokenMeansOver(s) && Targets(s)
  }

  lemma DownNotes(r: Run, l: RunLabel, cur: SState)
    requires RunInv(r) && RunStep(r, l, cur).Some?
    ensures var n := NoteOf(r, l);
      var r' := RunStep(r, l, cur).value;
      && (n.Some? && n.value.State? && Down(n.value.state) ==> Late(r'.main) && !r.main.Exited?)
      && (Late(r.main) ==> Late(r'.main))
      && (r.main.Exited? ==> r'.main.Exited?)
      && (r.main.Begin? ==> r'.main.Begin? || n == Some(State(Starting)))
      && (l.Main? && (r.main.Tell? || r.main.PostTell?) ==> Late(r'.main) && !r.main.Exited?)
  {
    if l.Child? {
      assert ChildNote(r.runner, l.env).Some? ==> !Down(ChildNote(r.runner, l.env).value);
    }
  }

  lemma GoOne(s: Sup, g: nat, l: RunLabel)
    requires SafeInv(s) && GoStep(s, g, l).Some?
    ensures OneAtATime(GoStep(s, g, l).value)
  {
    DownNotes(s.gs[g].run, l, s.loaded[s.gs[g].id].state);
  }

  /** While one goroutine of an id has not exited all others have. */
  lemma OthersOver(s: Sup, g: nat, l: RunLabel)
    requires OneAtATime(s) && GoStep(s, g, l).Some? && !Exiting(s.gs[g]) && Late(GoStep(s, g, l).value.gs[g].run.main)
    ensures AllOver(GoStep(s, g, l).value, s.gs[g].id, false)
  {
    var s' := GoStep(s, g, l).value;
    forall k | 0 <= k < |s'.gs| && s'.gs[k].id == s.gs[g].id ensures Late(s'.gs[k].run.main) {
      assert k != g ==> s'.gs[k] == s.gs[k] && Exiting(s.gs[k]);
    }
  }

  lemma GoAllOver(s: Sup, g: nat, l: RunLabel, id: Id)
    requires SafeInv(s) && GoStep(s, g, l).Some? && id in s.loaded
    ensures AllOver(s, id, false) ==> AllOver(GoStep(s, g, l).value, id, false)
    ensures AllOver(s, id, true) && Down(GoStep(s, g, l).value.loaded[id].state) ==> AllOver(GoStep(s, g, l).value, id, true)
  {
    DownNotes(s.gs[g].run, l, s.loaded[s.gs[g].id].state);
  }

  lemma GoSafe(s: Sup, g: nat, l: RunLabel)
    requires SafeInv(s) && GoStep(s, g, l).Some?
    ensures SafeInv(GoStep(s, g, l).value)
  {
    var s' := GoStep(s, g, l).value;
    GoKeeps(s, g, l);
    GoOne(s, g, l);
    DownNotes(s.gs[g].run, l, s.loaded[s.gs[g].id].state);
    forall id | id in s'.loaded && Down(s'.loaded[id].state) ensures AllOver(s', id, true) {
      if Down(s.loaded[id].state) {
        GoAllOver(s, g, l, id);
      } else {
        OthersOver(s, g, l);
      }
    }
    forall id | WokenFor(s'.shut, id) ensures AllOver(s', id, false) {
      if WokenFor(s.shut, id) {
        GoAllOver(s, g, l, id);
      } else {
        OthersOver(s, g, l);
      }
    }
  }

  lemma StartKeepsOne(s: Sup, l: Label)
    requires SafeInv(s) && Tidy(s, l)
    requires l.StartCall? || l.StartNext? || l.StartSpawn? || l.StartNotified? || l.StartEnd?
    requires StartStep(s, l).Some?
    ensures OneAtATime(StartStep(s, l).value) && Targets(StartStep(s, l).value)
  {
  }

  lemma StartKeepsDown(s: Sup, l: Label)
    requires SafeInv(s) && Tidy(s, l)
    requires l.StartCall? || l.StartNext? || l.StartSpawn? || l.StartNotified? || l.StartEnd?
    requires StartStep(s, l).Some?
    ensures DownMeansOver(StartStep(s, l).value)
  {
    var s' := StartStep(s, l).value;
    forall id | id in s'.loaded && Down(s'.loaded[id].state) ensures AllOver(s', id, true) {
      assert AllOver(s, id, true);
    }
  }

  lemma StartKeepsWoken(s: Sup, l: Label)
    requires SafeInv(s) && Tidy(s, l)
    requires l.StartCall? || l.StartNext? || l.StartSpawn? || l.StartNotified? || l.StartEnd?
    requires StartStep(s, l).Some?
    ensures WokenMeansOver(StartStep(s, l).value)
  {
    var s' := StartStep(s, l).value;
    forall id | WokenFor(s'.shut, id) ensures AllOver(s', id, false) {
      assert AllOver(s, id, false);
    }
  }

  lemma StartSafe(s: Sup, l: Label)
    requires SafeInv(s) && Tidy(s, l)
    requires l.StartCall? || l.StartNext? || l.StartSpawn? || l.StartNotified? || l.StartEnd?
    requires StartStep(s, l).Some?
    ensures SafeInv(StartStep(s, l).value)
  {
    StartKeeps(s, l);
    StartKeepsOne(s, l);
    StartKeepsDown(s, l);
    StartKeepsWoken(s, l);
  }

  lemma ListenSafe(s: Sup, g: nat)
    requires SafeInv(s) && (ListenStep(s, g).Some? || Step(s, ListenEnd(g)).Some?)
    ensures ListenStep(s, g).Some? ==> SafeInv(ListenStep(s, g).value)
    ensures Step(s, ListenEnd(g)).Some? ==> SafeInv(Step(s, ListenEnd(g)).value)
  {
    if ListenStep(s, g).Some? {
      ListenKeeps(s, g);
      SameMains(s, ListenStep(s, g).value);
    }
    if Step(s, ListenEnd(g)).Some? {
      ListenEndKeeps(s, g);
      SameMains(s, Step(s, ListenEnd(g)).value);
    }
  }

  /** What moves no main and changes no state keeps the invariant. */
  lemma SameMains(s: Sup, s': Sup)
    requires SafeInv(s) && TableInv(s')
    requires |s'.gs| == |s.gs| && s'.mu == s.mu && s'.shut == s.shut && s'.terminating == s.terminating
    requires forall g :: 0 <= g < |s.gs| ==> s'.gs[g].id == s.gs[g].id && s'.gs[g].run.main == s.gs[g].run.main
    requires s'.loaded.Keys == s.loaded.Keys && forall id :: id in s.loaded ==> s'.loaded[id].state == s.loaded[id].state
    ensures SafeInv(s')
  {
    forall id | id in s'.loaded && Down(s'.loaded[id].state) ensures AllOver(s', id, true) {
      assert AllOver(s, id, true);
    }
    forall id | WokenFor(s'.shut, id) ensures AllOver(s', id, false) {
      assert AllOver(s, id, false);
    }
  }

  lemma LoadSafe(s: Sup, services: seq<Service>)
    requires SafeInv(s) && Step(s, Load(services)).Some?
    ensures SafeInv(Step(s, Load(services)).value)
  {
    var s' := Step(s, Load(services)).value;
    TableStep(s, Load(services));
    LoadKeeps(s.loaded, services);
    forall id | id in s'.loaded && Down(s'.loaded[id].state) ensures AllOver(s', id, true) {
      assert AllOver(s, id, true);
    }
    forall id | WokenFor(s'.shut, id) ensures AllOver(s', id, false) {
      assert AllOver(s, id, false);
    }
  }

  lemma ShutKeepsOver(s: Sup, l: Label, id: Id)
    requires SafeInv(s) && (l.ShutdownCall? || l.ShutdownSend? || l.WaitDown? || l.WaitEnd?) && ShutStep(s, l).Some?
    ensures AllOver(s, id, true) ==> AllOver(ShutStep(s, l).value, id, true)
    ensures WokenFor(ShutStep(s, l).value.shut, id) ==> AllOver(ShutStep(s, l).value, id, false)
  {
    if WokenFor(s.shut, id) {
      assert AllOver(s, id, false);
    } else if WokenFor(ShutStep(s, l).value.shut, id) {
      assert l.WaitDown? && AllOver(s, id, true);
    }
  }

  lemma ShutKeepsTargets(s: Sup, l: Label)
    requires SafeInv(s) && (l.ShutdownCall? || l.ShutdownSend? || l.WaitDown? || l.WaitEnd?) && ShutStep(s, l).Some?
    ensures OneAtATime(ShutStep(s, l).value) && Targets(ShutStep(s, l).value)
    ensures forall id :: id in ShutStep(s, l).value.loaded ==>
      id in s.loaded && ShutStep(s, l).value.loaded[id].state == s.loaded[id].state
  {
  }

  lemma ShutSafe(s: Sup, l: Label)
    requires SafeInv(s) && (l.ShutdownCall? || l.ShutdownSend? || l.WaitDown? || l.WaitEnd?) && ShutStep(s, l).Some?
    ensures SafeInv(ShutStep(s, l).value)
  {
    var s' := ShutStep(s, l).value;
    TableStep(s, l);
    ShutKeepsTargets(s, l);
    forall id | id in s'.loaded && Down(s'.loaded[id].state) ensures AllOver(s', id, true) {
      ShutKeepsOver(s, l, id);
    }
    forall id | WokenFor(s'.shut, id) ensures AllOver(s', id, false) {
      ShutKeepsOver(s, l, id);
    }
  }

  lemma SafeStep(s: Sup, l: Label)
    requires SafeInv(s) && TidyStep(s, l).Some?
    ensures SafeInv(TidyStep(s, l).value)
  {
    match l
    case Load(services) => LoadSafe(s, services);
    case Go(g, rl) => GoSafe(s, g, rl);
    case Listen(g) => ListenSafe(s, g);
    case ListenEnd(g) => ListenSafe(s, g);
    case StopToken(id) => TableStep(s, l); SameMains(s, Step(s, l).value);
    case Deny => TableStep(s, l); SameMains(s, Step(s, l).value);
    case ShutdownCall => ShutSafe(s, l);
    case ShutdownSend(_) => ShutSafe(s, l);
    case WaitDown(_) => ShutSafe(s, l);
    case WaitEnd => ShutSafe(s, l);
    case _ => StartSafe(s, l);
  }

  lemma SafeHolds(run: seq<Label>)
    requires Exec(TidyStep, Empty(), run).Some?
    ensures SafeInv(Exec(TidyStep, Empty(), run).value)
  {
    forall s, l | SafeInv(s) && TidyStep(s, l).Some? ensures SafeInv(TidyStep(s, l).value) {
      SafeStep(s, l);
    }
    InvariantHolds(TidyStep, SafeInv, Empty(), run);
  }

  /** No child of the goroutine is left, and everything it started was reaped. */
  predicate Reaped(G: Gor)
  {
    && PcChild(G.run.runner.pc) == NoChild && G.run.exited.None?
    && Starts(G.run.runner.trace) == Reaps(G.run.runner.trace)
  }

  /** The goroutines and their children once Shutdown has returned. */
  ghost predicate Settled(s: Sup, runners: seq<Runner>)
  {
    && SafeInv(s) && s.shut.Stopped?
    && |s.gs| == |runners|
    && forall g :: 0 <= g < |s.gs| ==> Over(s.gs[g].run.main) && s.gs[g].run.runner == runners[g]
  }

  function Runners(gs: seq<Gor>): seq<Runner> {
    seq(|gs|, g requires 0 <= g < |gs| => gs[g].run.runner)
  }

  lemma SettledStep(s: Sup, l: Label, runners: seq<Runner>)
    requires Settled(s, runners) && Step(s, l).Some?
    ensures TidyStep(s, l).Some? && Settled(Step(s, l).value, runners)
  {
    SettledIsTidy(s, l, runners);
    SafeStep(s, l);
    RunnersRest(s, l);
  }

  /** Once every goroutine is over, no runner moves. */
  lemma RunnersRest(s: Sup, l: Label)
    requires TableInv(s) && s.mu.Free? && s.shut.Stopped? && s.terminating && Step(s, l).Some?
    requires forall g :: 0 <= g < |s.gs| ==> Over(s.gs[g].run.main)
    ensures var s' := Step(s, l).value;
      && s'.shut.Stopped? && |s'.gs| == |s.gs|
      && forall g :: 0 <= g < |s.gs| ==> Over(s'.gs[g].run.main) && s'.gs[g].run.runner == s.gs[g].run.runner
  {
    if l.Go? {
      OverIsStable(s.gs[l.g].run, l.l, s.loaded[s.gs[l.g].id].state);
    }
  }

  lemma SettledIsTidy(s: Sup, l: Label, runners: seq<Runner>)
    requires Settled(s, runners) && Step(s, l).Some?
    ensures s.mu.Free? && TidyStep(s, l).Some?
  {
  }

  /** Shutdown safety, over every tidy run: once the wait of Shutdown has returned nil, every child ever
      started has been reaped, and whatever happens after that, no runner makes another step. */
  lemma ShutdownIsSafe(run: seq<Label>, more: seq<Label>)
    requires Exec(TidyStep, Empty(), run).Some?
    requires Exec(TidyStep, Empty(), run).value.shut.Stopped?
    ensures forall g :: 0 <= g < |Exec(TidyStep, Empty(), run).value.gs| ==>
      Reaped(Exec(TidyStep, Empty(), run).value.gs[g])
    ensures Exec(Step, Exec(TidyStep, Empty(), run).value, more).Some? ==>
      Runners(Exec(Step, Exec(TidyStep, Empty(), run).value, more).value.gs)
      == Runners(Exec(TidyStep, Empty(), run).value.gs)
  {
    var s := Exec(TidyStep, Empty(), run).value;
    SafeHolds(run);
    var runners := Runners(s.gs);
    forall g | 0 <= g < |s.gs| ensures Over(s.gs[g].run.main) && Reaped(s.gs[g]) {
      assert WokenFor(s.shut, s.gs[g].id);
      OverIsQuiet(s.gs[g].run);
    }
    if Exec(Step, s, more).Some? {
      forall t, l | Settled(t, runners) && Step(t, l).Some? ensures Settled(Step(t, l).value, runners) {
        SettledStep(t, l, runners);
      }
      InvariantHolds(Step, t => Settled(t, runners), s, more);
    }
  }

  // ---------------------------------------------------------------------------------------------
  // Services that are started at most once

  /** No id is claimed that has a goroutine already. */
  ghost function OnceStep(s: Sup, l: Label): Option<Sup>
  {
    if Claims(s, l).Some? && exists g :: 0 <= g < |s.gs| && s.gs[g].id == Claims(s, l).value then None else Step(s, l)
  }

  lemma {:induction false} OnceIsTidy(run: seq<Label>)
    requires Exec(OnceStep, Empty(), run).Some?
    ensures Exec(TidyStep, Empty(), run) == Exec(OnceStep, Empty(), run)
  {
    if run != [] {
      OnceIsTidy(run[..|run| - 1]);
    }
  }

  // ---------------------------------------------------------------------------------------------
  // A loaded service that was never started

  /** Some Start has spawned a goroutine for id. */
  ghost predicate EverStarted(s: Sup, id: Id)
  {
    exists g :: 0 <= g < |s.gs| && s.gs[g].id == id
  }

  ghost predicate StartedInv(s: Sup)
  {
    && (forall id :: id in s.loaded && s.loaded[id].state != Initialized ==> EverStarted(s, id))
    && (forall id :: WokenFor(s.shut, id) ==> EverStarted(s, id))
    && Targets(s)
    && TableInv(s)
  }

  lemma StaysStarted(s: Sup, l: Label, id: Id)
    requires Step(s, l).Some? && EverStarted(s, id)
    ensures EverStarted(Step(s, l).value, id)
  {
    var g :| 0 <= g < |s.gs| && s.gs[g].id == id;
    assert Step(s, l).value.gs[g].id == id;
  }

  lemma StartedStep(s: Sup, l: Label)
    requires StartedInv(s) && Step(s, l).Some?
    ensures StartedInv(Step(s, l).value)
  {
    var s' := Step(s, l).value;
    TableStep(s, l);
    TargetsStep(s, l);
    forall id | id in s'.loaded && s'.loaded[id].state != Initialized ensures EverStarted(s', id) {
      StateNeedsStart(s, l, id);
    }
    forall id | WokenFor(s'.shut, id) ensures EverStarted(s', id) {
      WakingNeedsStart(s, l, id);
    }
  }

  lemma TargetsStep(s: Sup, l: Label)
    requires StartedInv(s) && Step(s, l).Some?
    ensures Targets(Step(s, l).value)
  {
    if l.Load? {
      LoadKeeps(s.loaded, l.services);
    }
  }

  lemma StateNeedsStart(s: Sup, l: Label, id: Id)
    requires StartedInv(s) && Step(s, l).Some?
    requires id in Step(s, l).value.loaded && Step(s, l).value.loaded[id].state != Initialized
    ensures EverStarted(Step(s, l).value, id)
  {
    if l.Load? {
      LoadKeeps(s.loaded, l.services);
    }
    if id in s.loaded && s.loaded[id].state != Initialized {
      StaysStarted(s, l, id);
    } else {
      assert l.Go? && Step(s, l).value.gs[l.g].id == id;
    }
  }

  lemma WakingNeedsStart(s: Sup, l: Label, id: Id)
    requires StartedInv(s) && Step(s, l).Some? && WokenFor(Step(s, l).value.shut, id)
    ensures EverStarted(Step(s, l).value, id)
  {
    if WokenFor(s.shut, id) {
      StaysStarted(s, l, id);
    } else if l.Go? {
      assert Step(s, l).value.gs[l.g].id == id;
    } else {
      assert l.WaitDown? && Down(s.loaded[id].state);
      StaysStarted(s, l, id);
    }
  }

  /** The wait of Shutdown returns only when every loaded service has been started at some time: one that
      was loaded and never started is never down, and keeps it waiting. */
  lemma ShutdownNeedsEveryServiceStarted(run: seq<Label>, id: Id)
    requires Exec(Step, Empty(), run).Some? && Exec(Step, Empty(), run).value.shut.Stopped?
    requires id in Exec(Step, Empty(), run).value.loaded
    ensures EverStarted(Exec(Step, Empty(), run).value, id)
  {
    forall s, l | StartedInv(s) && Step(s, l).Some? ensures StartedInv(Step(s, l).value) {
      StartedStep(s, l);
    }
    InvariantHolds(Step, StartedInv, Empty(), run);
    assert WokenFor(Exec(Step, Empty(), run).value.shut, id);
  }
}
