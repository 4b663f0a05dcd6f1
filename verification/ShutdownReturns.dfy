/** When Shutdown can return: it needs every loaded service to have been started, and no live run to have missed its
    stop token -- which a run can, because the listener of an earlier run of its service may take the token. */
module ShutdownReturns {
  import opened Common
  import opened Restart
  import opened ServiceRun
  import opened RunEnds
  import opened Supervisor
  import opened Shutdown
  import opened ShutdownExact
  import Untidy

  // ---------------------------------------------------------------------------------------------
  // It can return

  /** The run is cancelled, or there is a stop token for its service. */
  predicate Stoppable(s: Sup, G: Gor) {
    G.run.ctxDone || (G.id in s.loaded && s.loaded[G.id].stop)
  }

  /** The run can be stopped, or ends by itself. */
  predicate Ending(s: Sup, G: Gor) {
    Stoppable(s, G) || !Endless(G.run)
  }

  ghost predicate AllEnding(s: Sup)
  {
    forall g :: 0 <= g < |s.gs| ==> Ending(s, s.gs[g])
  }

  /** Of two goroutines of one id, at least one is cancelled. */
  lemma OneLive(s: Sup, g: nat, k: nat)
    requires Reachable(s) && g < |s.gs| && k < |s.gs| && g != k && s.gs[g].id == s.gs[k].id
    ensures s.gs[g].run.ctxDone || s.gs[k].run.ctxDone
  {
    ReachableOk(s);
    assert Listens(s.gs[g]) && Listens(s.gs[k]);
  }

  /** A goroutine that ends or can be stopped is brought to its end; a token that it does not need stays. */
  lemma EndOne(s: Sup, g: nat) returns (s': Sup)
    requires Reachable(s) && g < |s.gs| && Ending(s, s.gs[g]) && s.gs[g].id in s.loaded
    ensures Leads(s, s', true) && OnlyMoved(s, s', g) && s'.gs[g].run.main.Exited? && s'.gs[g].run.ctxDone
    ensures s.gs[g].run.ctxDone ==> s'.loaded[s.gs[g].id].stop == s.loaded[s.gs[g].id].stop
  {
    if s.gs[g].run.ctxDone {
      s' := DriveDone(s, g, true);
    } else if s.loaded[s.gs[g].id].stop {
      var m := TakeToken(s, g, true);
      Known(m, g);
      s' := DriveDone(m, g, true);
      LeadsOn(s, m, s', true);
      MovesOn(s, m, s', g);
    } else {
      s' := DriveLive(s, g, true);
    }
  }

  /** The same, and the others end or can be stopped as before. */
  lemma StopOne(s: Sup, g: nat) returns (s': Sup)
    requires Reachable(s) && AllEnding(s) && g < |s.gs|
    ensures Leads(s, s', true) && OnlyMoved(s, s', g) && s'.gs[g].run.main.Exited? && AllEnding(s')
  {
    Known(s, g);
    assert Ending(s, s.gs[g]);
    s' := EndOne(s, g);
    forall k | 0 <= k < |s'.gs| ensures Ending(s', s'.gs[k]) {
      if k != g {
        assert Ending(s, s.gs[k]);
        if s.gs[k].id == s.gs[g].id {
          OneLive(s, g, k);
        }
      }
    }
  }

  lemma {:induction false} StopEach(s: Sup, n: nat) returns (s': Sup)
    requires Reachable(s) && AllEnding(s) && n <= |s.gs|
    ensures Leads(s, s', true) && Untidy.Moved(s, s') && AllEnding(s')
    ensures forall k :: 0 <= k < n ==> s'.gs[k].run.main.Exited?
  {
    if n == 0 {
      LeadsNowhere(s, true);
      s' := s;
    } else {
      var m := StopEach(s, n - 1);
      s' := StopOne(m, n - 1);
      LeadsOn(s, m, s', true);
      Untidy.ToldTwice(s.shut, m.shut, s'.shut);
    }
  }

  /** No service waits for a run that has exited. */
  lemma NoneRegistered(s: Sup, id: Id)
    requires Reachable(s) && id in s.loaded && EverStarted(s, id)
    requires forall k :: 0 <= k < |s.gs| ==> s.gs[k].run.main.Exited?
    ensures Down(s.loaded[id].state) && !RegisteredFor(s.shut, id)
  {
    Untidy.EndedIsDown(s, id);
    ReachableOk(s);
  }

  lemma KeepsStarted(s: Sup, s': Sup, id: Id)
    requires Untidy.Moved(s, s') && EverStarted(s, id)
    ensures EverStarted(s', id)
  {
    var k :| 0 <= k < |s.gs| && s.gs[k].id == id;
    assert s'.gs[k].id == id;
  }

  /** Every goroutine has exited and every token is sent: the waits end. */
  lemma EndWaits(s: Sup) returns (s': Sup)
    requires Reachable(s) && AllSent(s.shut)
    requires forall k :: 0 <= k < |s.gs| ==> s.gs[k].run.main.Exited?
    requires forall id :: id in s.loaded ==> EverStarted(s, id)
    ensures Leads(s, s', true) && s'.shut.Stopped?
  {
    KeysLoaded(s);
    var m := WaitAll(s, set id | id in s.shut.waits && s.shut.waits[id].Sent?, true);
    forall id | id in m.shut.waits ensures m.shut.waits[id].Woken? {
      NoneRegistered(s, id);
    }
    s' := OneStep(m, WaitEnd, true);
    LeadsOn(s, m, s', true);
  }

  /** The token of the run is there, or Shutdown has yet to send it. */
  predicate WillBeStoppable(s: Sup, G: Gor) {
    Stoppable(s, G) || (s.shut.Waits? && G.id in s.shut.waits && s.shut.waits[G.id].Unsent?)
  }

  /** An endless run whose stop token is gone. */
  predicate HasMissed(s: Sup, G: Gor) {
    Endless(G.run) && !WillBeStoppable(s, G)
  }

  ghost predicate AllStarted(s: Sup)
  {
    forall id :: id in s.loaded ==> EverStarted(s, id)
  }

  ghost predicate NoneMissed(s: Sup)
  {
    forall g :: 0 <= g < |s.gs| ==> !HasMissed(s, s.gs[g])
  }

  /** Shutdown is never stuck by itself: from every reachable state of its wait in which every loaded service has been
      started and no endless run has missed its stop token, its own steps and those of the goroutines, with no
      other token sent, lead to its return -- if children exit and callbacks return. */
  lemma ShutdownCanReturn(s: Sup) returns (s': Sup)
    requires Reachable(s) && s.shut.Waits? && AllStarted(s) && NoneMissed(s)
    ensures Leads(s, s', true) && s'.shut.Stopped?
  {
    var unsent := set id | id in s.shut.waits && s.shut.waits[id].Unsent?;
    var a := SendAll(s, unsent, true);
    forall g | 0 <= g < |a.gs| ensures Ending(a, a.gs[g]) {
      assert !HasMissed(s, s.gs[g]);
      Known(s, g);
    }
    var b := StopEach(a, |a.gs|);
    forall id | id in b.loaded ensures EverStarted(b, id) {
      assert EverStarted(s, id);
      KeepsStarted(a, b, id);
    }
    s' := EndWaits(b);
    LeadsOn(s, a, b, true);
    LeadsOn(s, b, s', true);
  }

  // ---------------------------------------------------------------------------------------------
  // It may never return

  lemma CalmStepOf(r: Run, l: RunLabel, cur: SState)
    requires Calm(r) && Endless(r) && RunStep(r, l, cur).Some? && !l.Cancel?
    ensures Calm(RunStep(r, l, cur).value)
  {
    if l.Child? {
      LiveMove(r.runner.policy, r.runner.pc, l.env);
    }
  }

  /** A goroutine at its end, with its runner. */
  predicate Finished(r: Run) {
    r.main.Exited? && (!r.spawned || r.runner.pc.Done?)
  }

  lemma FinishedOn(r: Run, l: RunLabel, cur: SState)
    requires Finished(r) && RunStep(r, l, cur).Some?
    ensures Finished(RunStep(r, l, cur).value) && NoteOf(r, l).None?
  {
  }

  /** Shutdown waits for id, whose goroutine g has missed its stop token; no other goroutine of id is left. */
  ghost predicate Missed(s: Sup, id: Id, g: nat)
  {
    && s.mu.Free? && s.terminating && id in s.loaded && !s.loaded[id].stop && !Down(s.loaded[id].state)
    && s.shut.Waits? && id in s.shut.waits && (s.shut.waits[id].Sent? || s.shut.waits[id].Registered?)
    && g < |s.gs| && s.gs[g].id == id && Endless(s.gs[g].run) && Calm(s.gs[g].run)
    && (forall k :: 0 <= k < |s.gs| && k != g && s.gs[k].id == id ==> Finished(s.gs[k].run))
  }

  lemma MissedGo(s: Sup, id: Id, g: nat, k: nat, l: RunLabel)
    requires Missed(s, id, g) && GoStep(s, k, l).Some?
    ensures Missed(GoStep(s, k, l).value, id, g)
  {
    if k == g {
      EndlessOn(s.gs[k].run, l, s.loaded[s.gs[k].id].state);
      CalmStepOf(s.gs[k].run, l, s.loaded[s.gs[k].id].state);
    } else if s.gs[k].id == id {
      FinishedOn(s.gs[k].run, l, s.loaded[s.gs[k].id].state);
    }
  }

  lemma MissedStep(s: Sup, id: Id, g: nat, l: Label)
    requires Missed(s, id, g) && Step(s, l).Some? && l != StopToken(id)
    ensures Missed(Step(s, l).value, id, g)
  {
    if l.Go? {
      MissedGo(s, id, g, l.g, l.l);
    }
  }

  /** Without another stop token for id, nothing that any goroutine, child or caller does lets Shutdown return. */
  lemma {:induction false} StuckForever(s: Sup, id: Id, g: nat, more: seq<Label>)
    requires Missed(s, id, g) && StopToken(id) !in more && Exec(Step, s, more).Some?
    ensures Missed(Exec(Step, s, more).value, id, g)
  {
    if more != [] {
      var init := more[..|more| - 1];
      assert Last(more) in more && forall l :: l in init ==> l in more;
      StuckForever(s, id, g, init);
      MissedStep(Exec(Step, s, init).value, id, g, Last(more));
    }
  }

  // ---------------------------------------------------------------------------------------------
  // The exact condition

  /** In a tidy state, the service of an endless run whose token is gone is waited for, and cannot be told. */
  lemma HasMissedIsMissed(s: Sup, g: nat)
    requires Reachable(s) && SafeInv(s) && s.shut.Waits? && g < |s.gs| && HasMissed(s, s.gs[g])
    ensures Missed(s, s.gs[g].id, g)
  {
    Known(s, g);
    var id := s.gs[g].id;
    assert !Late(s.gs[g].run.main) && !s.gs[g].run.main.Begin?;
    assert !AllOver(s, id, true) && !AllOver(s, id, false);
    forall k | 0 <= k < |s.gs| && k != g && s.gs[k].id == id ensures Finished(s.gs[k].run) {
      Known(s, k);
    }
  }

  /** What no step undoes once Shutdown is under way: the goroutines stay those that there are. */
  ghost predicate SameGors(s: Sup, s': Sup)
  {
    && TableInv(s') && s'.terminating && |s'.gs| == |s.gs| && s'.loaded.Keys == s.loaded.Keys
    && forall g :: 0 <= g < |s.gs| ==> s'.gs[g].id == s.gs[g].id
  }

  lemma SameGorsStep(s: Sup, s': Sup, l: Label)
    requires SameGors(s, s') && Step(s', l).Some?
    ensures SameGors(s, Step(s', l).value)
  {
    TableStep(s', l);
  }

  /** Nothing that is under way starts a service that was not. */
  lemma {:induction false} NoneStarted(s: Sup, more: seq<Label>, id: Id)
    requires Exec(Quietly, s, more).Some? && TableInv(s) && s.terminating
    ensures SameGors(s, Exec(Quietly, s, more).value)
    ensures EverStarted(Exec(Quietly, s, more).value, id) ==> EverStarted(s, id)
  {
    if more != [] {
      var init := more[..|more| - 1];
      NoneStarted(s, init, id);
      SameGorsStep(s, Exec(Quietly, s, init).value, Last(more));
    }
    var s' := Exec(Quietly, s, more).value;
    if EverStarted(s', id) {
      var k :| 0 <= k < |s'.gs| && s'.gs[k].id == id;
      assert s.gs[k].id == id;
    }
  }

  lemma {:induction false} QuietIsStep(s: Sup, more: seq<Label>)
    requires Exec(Quietly, s, more).Some?
    ensures Exec(Step, s, more) == Exec(Quietly, s, more)
    ensures forall l :: l in more ==> !l.StopToken?
  {
    if more != [] {
      var init := more[..|more| - 1];
      QuietIsStep(s, init);
      assert more == init + [Last(more)];
    }
  }

  /** The wait can be brought to its end without another token. */
  ghost predicate CanReturn(s: Sup)
  {
    exists s' :: Leads(s, s', true) && s'.shut.Stopped?
  }

  /** If the wait can end, every loaded service was started. */
  lemma ReturnNeedsStarts(s: Sup, s': Sup)
    requires Reachable(s) && s.shut.Waits? && Leads(s, s', true) && s'.shut.Stopped?
    ensures AllStarted(s)
  {
    ReachableOk(s);
    var more :| Exec(StepsOf(true), s, more) == Some(s');
    var run :| Exec(Step, Empty(), run) == Some(s');
    forall id | id in s.loaded ensures EverStarted(s, id) {
      NoneStarted(s, more, id);
      ShutdownNeedsEveryServiceStarted(run, id);
    }
  }

  /** If the wait can end, no endless run has missed its token. */
  lemma ReturnNeedsTokens(s: Sup, s': Sup)
    requires Reachable(s) && SafeInv(s) && s.shut.Waits? && Leads(s, s', true) && s'.shut.Stopped?
    ensures NoneMissed(s)
  {
    var more :| Exec(StepsOf(true), s, more) == Some(s');
    QuietIsStep(s, more);
    forall g | 0 <= g < |s.gs| ensures !HasMissed(s, s.gs[g]) {
      if HasMissed(s, s.gs[g]) {
        HasMissedIsMissed(s, g);
        StuckForever(s, s.gs[g].id, g, more);
        assert false;
      }
    }
  }

  /** The exact condition, after every tidy run and at any time of the wait: Shutdown can return, with no token but its own, if
      and only if every loaded service was started and no endless run has missed its stop token. */
  lemma ReturnIsExact(run: seq<Label>)
    requires Exec(TidyStep, Empty(), run).Some? && Exec(TidyStep, Empty(), run).value.shut.Waits?
    ensures var s := Exec(TidyStep, Empty(), run).value;
      CanReturn(s) <==> AllStarted(s) && NoneMissed(s)
  {
    var s := Exec(TidyStep, Empty(), run).value;
    Untidy.TidyIsReachable(run);
    SafeHolds(run);
    if s' :| Leads(s, s', true) && s'.shut.Stopped? {
      ReturnNeedsStarts(s, s');
      ReturnNeedsTokens(s, s');
    }
    if AllStarted(s) && NoneMissed(s) {
      var s' := ShutdownCanReturn(s);
    }
  }

  // ---------------------------------------------------------------------------------------------
  // How a stop token is missed

  predicate OnlyService(s: Sup, a: Id) {
    && s.loaded.Keys == {a} && s.loaded[a].policy.Forever? && !s.loaded[a].healthChecked && !Closed(s)
  }

  /** Start(a), when no goroutine of a holds a claim, up to its return. */
  lemma StartAgain(s: Sup, a: Id) returns (s': Sup)
    requires Reachable(s) && s.mu.Free? && OnlyService(s, a)
    requires forall k :: 0 <= k < |s.gs| ==> s.gs[k].run.main.Exited?
    ensures Leads(s, s', false) && s'.mu.Free? && OnlyService(s', a) && |s'.gs| == |s.gs| + 1
    ensures forall k :: 0 <= k < |s.gs| ==> s'.gs[k] == s.gs[k]
    ensures var G := s'.gs[|s.gs|];
      G.id == a && G.listening && Untidy.Climbing(G.run) && G.run.main.Cond? && G.run.runner.policy.Forever? && !G.run.healthChecked
  {
    var b := OneStep(s, StartCall([a]), false);
    assert [a][1..] == [];
    Untidy.RunningHolds(b, a);
    var c := OneStep(b, StartNext, false);
    var d := Untidy.StartOne(c);
    s' := OneStep(d, StartEnd, false);
    LeadsOn(s, b, c, false);
    LeadsOn(s, c, d, false);
    LeadsOn(s, d, s', false);
  }

  /** The first stage fails: the goroutine ends, its listener still waiting. */
  lemma FailEarly(s: Sup, g: nat) returns (s': Sup)
    requires Reachable(s) && g < |s.gs| && Untidy.Failing(s.gs[g].run) && s.gs[g].listening && s.gs[g].id in s.loaded
    ensures Leads(s, s', false) && OnlyMoved(s, s', g)
    ensures s'.gs[g].run.main.Exited? && s'.gs[g].run.ctxDone && s'.gs[g].listening
  {
    var m := Untidy.FailToDelete(s, g);
    s' := DriveDone(m, g, false);
    MovesOn(s, m, s', g);
    LeadsOn(s, m, s', false);
  }

  predicate RunningChild(G: Gor) {
    G.run.main.Select? && !G.run.ctxDone && G.run.runner.policy.Forever? && G.run.runner.pc.Wait1?
  }

  /** The child is started and reported. */
  lemma ChildReported(s: Sup, h: nat) returns (s': Sup)
    requires Reachable(s) && h < |s.gs| && s.gs[h].id in s.loaded
    requires s.gs[h].run == NewRun(Forever, false).(main := Select, notified := true, spawned := true)
    ensures Leads(s, s', false) && OnlyMoved(s, s', h) && RunningChild(s'.gs[h])
    ensures s'.loaded[s.gs[h].id].state == Running
  {
    var e := Env(false, true, Option.None, false, false, false);
    var n := OneGo(s, h, Child(e), false);
    s' := OneGo(n, h, Child(e), false);
    MovesOn(s, n, s', h);
    LeadsOn(s, n, s', false);
  }

  /** Nothing goes wrong, and the child is started and reported. */
  lemma UpAndRunning(s: Sup, h: nat) returns (s': Sup)
    requires Reachable(s) && h < |s.gs| && Untidy.Climbing(s.gs[h].run)
    requires s.gs[h].run.runner.policy.Forever? && !s.gs[h].run.healthChecked && s.gs[h].id in s.loaded
    ensures Leads(s, s', false) && OnlyMoved(s, s', h) && RunningChild(s'.gs[h])
    ensures s'.loaded[s.gs[h].id].state == Running
  {
    var m := Untidy.Climb(s, h);
    s' := ChildReported(m, h);
    MovesOn(s, m, s', h);
    LeadsOn(s, m, s', false);
  }

  lemma CallShutdown(s: Sup) returns (s': Sup)
    requires Reachable(s) && s.mu.Free? && !s.terminating
    ensures Leads(s, s', false) && s'.gs == s.gs && s'.loaded == s.loaded && s'.mu.Free? && s'.terminating
    ensures s'.shut == Waits(map id | id in s.loaded :: Unsent)
  {
    s' := OneStep(s, ShutdownCall, false);
  }

  /** The listener of a goroutine that has ended takes the token, and the live run of its service has missed it. */
  lemma TokenGone(s: Sup, a: Id, g: nat, h: nat) returns (s': Sup)
    requires Reachable(s) && s.mu.Free? && s.terminating && a in s.loaded && s.loaded[a].state == Running && s.loaded[a].stop
    requires s.shut.Waits? && a in s.shut.waits && s.shut.waits[a].Sent?
    requires |s.gs| == 2 && g < 2 && h < 2 && g != h && s.gs[g].id == s.gs[h].id == a
    requires s.gs[g].listening && Finished(s.gs[g].run) && RunningChild(s.gs[h])
    ensures Leads(s, s', false) && Missed(s', a, h)
  {
    ListenMoves(s, g);
    s' := OneStep(s, Listen(g), false);
  }

  /** Shutdown sends its token, and the listener of the goroutine g, which has ended, takes it. */
  lemma TakeAway(s: Sup, a: Id, g: nat, h: nat) returns (s': Sup)
    requires Reachable(s) && s.mu.Free? && OnlyService(s, a) && s.loaded[a].state == Running
    requires |s.gs| == 2 && g < 2 && h < 2 && g != h && s.gs[g].id == s.gs[h].id == a
    requires s.gs[g].listening && s.gs[g].run.main.Exited? && RunningChild(s.gs[h])
    ensures Leads(s, s', false) && Missed(s', a, h)
  {
    Known(s, g);
    var b := CallShutdown(s);
    var c := SendOne(b, a, false);
    s' := TokenGone(c, a, g, h);
    LeadsOn(s, b, c, false);
    LeadsOn(s, c, s', false);
  }

  /** For any id, a tidy run in which Shutdown waits for good: a restarted service has a listener left from its first run,
      whose ctx is done, and when the stop token comes it is that listener that receives it. */
  lemma StolenToken(a: Id) returns (s: Sup)
    ensures Leads(Empty(), s, false) && Missed(s, a, 1)
  {
    var t := Untidy.LoadOne(a, Forever);
    var b := StartAgain(t, a);
    var c := FailEarly(b, 0);
    var d := StartAgain(c, a);
    var e := UpAndRunning(d, 1);
    s := TakeAway(e, a, 0, 1);
    LeadsOn(Empty(), t, b, false);
    LeadsOn(Empty(), b, c, false);
    LeadsOn(Empty(), c, d, false);
    LeadsOn(Empty(), d, e, false);
    LeadsOn(Empty(), e, s, false);
  }
}
