/** The two halves that make the results on Shutdown exact: an untidy claim can always be turned against it, and it can
    always return once every loaded service was started. Both build a continuation of an arbitrary run. */
module ShutdownExact {
  import opened Common
  import opened Restart
  import opened ServiceRun
  import opened RunEnds
  import opened Supervisor
  import opened Shutdown

  // ---------------------------------------------------------------------------------------------
  // What holds in every reachable state

  predicate Stored(m: MainPc) {
    m.Tell? || m.Exited?
  }

  /** Some goroutine of id has recorded a terminal state and is about to tell. */
  ghost predicate Telling(s: Sup, id: Id)
  {
    exists g :: TellsFor(s, id, g)
  }

  predicate TellsFor(s: Sup, id: Id, g: nat) {
    g < |s.gs| && s.gs[g].id == id && (s.gs[g].run.main.Tell? || s.gs[g].run.main.PostTell?)
  }

  ghost predicate AllStored(s: Sup, id: Id)
  {
    forall g :: 0 <= g < |s.gs| && s.gs[g].id == id ==> Stored(s.gs[g].run.main)
  }

  /** A service all of whose goroutines have stored their terminal state is down. */
  ghost predicate QuietMeansDown(s: Sup)
  {
    forall id :: id in s.loaded && EverStarted(s, id) && AllStored(s, id) ==> Down(s.loaded[id].state)
  }

  predicate RegisteredFor(shut: Shut, id: Id) {
    shut.Waits? && id in shut.waits && shut.waits[id].Registered?
  }

  /** A waiter that is registered while its service is down is about to be told. */
  ghost predicate DownIsTold(s: Sup)
  {
    forall id :: id in s.loaded && RegisteredFor(s.shut, id) && Down(s.loaded[id].state) ==> Telling(s, id)
  }

  /** The goroutine that waits for the stop token is there as long as ctx is live; a run past its claim is cancelled. */
  predicate Listens(G: Gor) {
    (G.listening || G.run.ctxDone) && (!Holding(G.run.main) || G.run.main.Deleting? ==> G.run.ctxDone)
  }

  ghost predicate AllListen(s: Sup)
  {
    forall g :: 0 <= g < |s.gs| ==> Listens(s.gs[g])
  }

  ghost predicate AllCalm(s: Sup)
  {
    forall g :: 0 <= g < |s.gs| ==> Calm(s.gs[g].run)
  }

  ghost predicate Ok(s: Sup)
  {
    TableInv(s) && Targets(s) && QuietMeansDown(s) && DownIsTold(s) && AllListen(s) && AllCalm(s)
  }

  /** What one step of a run means for its state: a terminal state is stored by the step to Tell or PostTell, and a
      run that has stored its terminal state records nothing more. */
  lemma NotesOf(r: Run, l: RunLabel, cur: SState)
    requires RunInv(r) && RunStep(r, l, cur).Some?
    ensures var n := NoteOf(r, l);
      var r' := RunStep(r, l, cur).value;
      && (n.Some? && n.value.State? ==> !Stored(r.main))
      && (n.Some? && n.value.State? && Down(n.value.state) ==> r'.main.Tell? || r'.main.PostTell?)
      && (Stored(r'.main) && !Stored(r.main) ==> n.Some? && n.value.State? && Down(n.value.state))
      && (Stored(r.main) ==> Stored(r'.main))
      && (r.main.Tell? || r.main.PostTell? ==> r'.main == r.main || l.Main?)
  {
    if l.Child? {
      ChildNotes(r, l.env);
    }
  }

  lemma ChildNotes(r: Run, e: Env)
    requires RunInv(r) && ChildStep(r, e).Some?
    ensures var n := ChildNote(r.runner, e);
      n.Some? ==> !Down(n.value) && !Stored(r.main)
  {
  }

  lemma GoQuietFor(s: Sup, g: nat, l: RunLabel, id: Id)
    requires QuietMeansDown(s) && GoStep(s, g, l).Some? && RunInv(s.gs[g].run) && id in s.loaded
    requires EverStarted(GoStep(s, g, l).value, id) && AllStored(GoStep(s, g, l).value, id)
    ensures Down(GoStep(s, g, l).value.loaded[id].state)
  {
    var s' := GoStep(s, g, l).value;
    NotesOf(s.gs[g].run, l, s.loaded[s.gs[g].id].state);
    if id != s.gs[g].id || Stored(s.gs[g].run.main) {
      var h :| 0 <= h < |s'.gs| && s'.gs[h].id == id;
      assert s.gs[h].id == id;
      forall k | 0 <= k < |s.gs| && s.gs[k].id == id ensures Stored(s.gs[k].run.main) {
        assert s'.gs[k].id == id;
      }
      assert AllStored(s, id);
    } else {
      assert s'.gs[g].id == id && Stored(s'.gs[g].run.main);
    }
  }

  lemma GoQuiet(s: Sup, g: nat, l: RunLabel)
    requires Ok(s) && GoStep(s, g, l).Some?
    ensures QuietMeansDown(GoStep(s, g, l).value)
  {
    var s' := GoStep(s, g, l).value;
    assert s'.loaded.Keys == s.loaded.Keys;
    forall id | id in s'.loaded && EverStarted(s', id) && AllStored(s', id) ensures Down(s'.loaded[id].state) {
      GoQuietFor(s, g, l, id);
    }
  }

  lemma GoTold(s: Sup, g: nat, l: RunLabel)
    requires Ok(s) && GoStep(s, g, l).Some?
    ensures DownIsTold(GoStep(s, g, l).value)
  {
    var s' := GoStep(s, g, l).value;
    NotesOf(s.gs[g].run, l, s.loaded[s.gs[g].id].state);
    forall id | id in s'.loaded && RegisteredFor(s'.shut, id) && Down(s'.loaded[id].state) ensures Telling(s', id) {
      if Down(s.loaded[id].state) {
        var h :| TellsFor(s, id, h);
        assert TellsFor(s', id, h);
      } else {
        assert TellsFor(s', id, g);
      }
    }
  }

  lemma ListensOn(s: Sup, l: Label)
    requires AllListen(s) && Step(s, l).Some?
    ensures AllListen(Step(s, l).value)
  {
  }

  lemma CalmOn(s: Sup, l: Label)
    requires TableInv(s) && AllCalm(s) && Step(s, l).Some?
    ensures AllCalm(Step(s, l).value)
  {
    if l.Go? {
      CalmStep(s.gs[l.g].run, l.l, s.loaded[s.gs[l.g].id].state);
    }
  }

  lemma SameQuiet(s: Sup, s': Sup)
    requires Ok(s) && TableInv(s') && Targets(s')
    requires |s'.gs| == |s.gs|
    requires forall g :: 0 <= g < |s.gs| ==> s'.gs[g].id == s.gs[g].id && s'.gs[g].run.main == s.gs[g].run.main
    requires forall id :: id in s.loaded ==> id in s'.loaded && s'.loaded[id].state == s.loaded[id].state
    requires forall id :: RegisteredFor(s'.shut, id) ==>
      RegisteredFor(s.shut, id) || (id in s.loaded && !Down(s.loaded[id].state))
    ensures QuietMeansDown(s') && DownIsTold(s')
  {
    forall id | id in s'.loaded && EverStarted(s', id) && AllStored(s', id) ensures Down(s'.loaded[id].state) {
      var g :| 0 <= g < |s'.gs| && s'.gs[g].id == id;
      assert s.gs[g].id == id && id in s.loaded;
      assert AllStored(s, id);
    }
    forall id | id in s'.loaded && RegisteredFor(s'.shut, id) && Down(s'.loaded[id].state) ensures Telling(s', id) {
      var g :| TellsFor(s, id, g);
      assert TellsFor(s', id, g);
    }
  }

  lemma SpawnOk(s: Sup)
    requires Ok(s) && StartStep(s, StartSpawn).Some?
    ensures QuietMeansDown(StartStep(s, StartSpawn).value) && DownIsTold(StartStep(s, StartSpawn).value)
  {
    var s' := StartStep(s, StartSpawn).value;
    assert s'.shut.NotCalled?;
    forall id | id in s'.loaded && EverStarted(s', id) && AllStored(s', id) ensures Down(s'.loaded[id].state) {
      assert s'.gs[|s.gs|].run.main.Begin?;
      var g :| 0 <= g < |s'.gs| && s'.gs[g].id == id;
      assert g < |s.gs| && s.gs[g].id == id;
      forall h | 0 <= h < |s.gs| && s.gs[h].id == id ensures Stored(s.gs[h].run.main) {
        assert s'.gs[h] == s.gs[h];
      }
    }
  }

  lemma OkStep(s: Sup, l: Label)
    requires Ok(s) && Step(s, l).Some?
    ensures Ok(Step(s, l).value)
  {
    ListensOn(s, l);
    CalmOn(s, l);
    if l.Go? {
      GoKeeps(s, l.g, l.l);
      GoQuiet(s, l.g, l.l);
      GoTold(s, l.g, l.l);
    } else if l.StartSpawn? {
      StartKeeps(s, l);
      SpawnOk(s);
    } else {
      TableStep(s, l);
      TargetsKept(s, l);
      QuietKept(s, l);
    }
  }

  lemma TargetsKept(s: Sup, l: Label)
    requires Ok(s) && Step(s, l).Some? && !l.Go? && !l.StartSpawn?
    ensures Targets(Step(s, l).value)
  {
    if l.Load? {
      LoadKeeps(s.loaded, l.services);
    }
  }

  lemma QuietKept(s: Sup, l: Label)
    requires Ok(s) && Step(s, l).Some? && !l.Go? && !l.StartSpawn?
    requires TableInv(Step(s, l).value) && Targets(Step(s, l).value)
    ensures QuietMeansDown(Step(s, l).value) && DownIsTold(Step(s, l).value)
  {
    MainsKept(s, l);
    SameQuiet(s, Step(s, l).value);
  }

  lemma MainsKept(s: Sup, l: Label)
    requires Step(s, l).Some? && !l.Go? && !l.StartSpawn?
    ensures var s' := Step(s, l).value;
      && |s'.gs| == |s.gs|
      && (forall g :: 0 <= g < |s.gs| ==> s'.gs[g].id == s.gs[g].id && s'.gs[g].run.main == s.gs[g].run.main)
      && (forall id :: id in s.loaded ==> id in s'.loaded && s'.loaded[id].state == s.loaded[id].state)
      && (forall id :: RegisteredFor(s'.shut, id) ==>
            RegisteredFor(s.shut, id) || (id in s.loaded && !Down(s.loaded[id].state)))
  {
    if l.Load? {
      LoadKeeps(s.loaded, l.services);
    }
  }

  lemma OkHolds(run: seq<Label>)
    requires Exec(Step, Empty(), run).Some?
    ensures Ok(Exec(Step, Empty(), run).value)
  {
    forall s, l | Ok(s) && Step(s, l).Some? ensures Ok(Step(s, l).value) {
      OkStep(s, l);
    }
    InvariantHolds(Step, Ok, Empty(), run);
  }

  // ---------------------------------------------------------------------------------------------
  // Continuations

  ghost predicate Reachable(s: Sup)
  {
    exists run :: Exec(Step, Empty(), run) == Some(s)
  }

  /** A tidy step; a quiet one is not a stop token other than those of Shutdown. */
  ghost function Quietly(s: Sup, l: Label): Option<Sup> {
    if l.StopToken? then None else TidyStep(s, l)
  }

  ghost function StepsOf(quiet: bool): (Sup, Label) -> Option<Sup> {
    if quiet then Quietly else TidyStep
  }

  /** Tidy, and if asked for quiet, steps lead from s, which is reachable, to s'. */
  ghost predicate Leads(s: Sup, s': Sup, quiet: bool)
  {
    Reachable(s) && Reachable(s') && exists more :: Exec(StepsOf(quiet), s, more) == Some(s')
  }

  lemma LeadsNowhere(s: Sup, quiet: bool)
    requires Reachable(s)
    ensures Leads(s, s, quiet)
  {
    assert Exec(StepsOf(quiet), s, []) == Some(s);
  }

  lemma ReachStep(s: Sup, l: Label)
    requires Reachable(s) && Step(s, l).Some?
    ensures Reachable(Step(s, l).value)
  {
    var run :| Exec(Step, Empty(), run) == Some(s);
    assert (run + [l])[..|run + [l]| - 1] == run;
    assert Exec(Step, Empty(), run + [l]) == Step(s, l);
  }

  lemma LeadsOn(s: Sup, m: Sup, s': Sup, quiet: bool)
    requires Leads(s, m, quiet) && Leads(m, s', quiet)
    ensures Leads(s, s', quiet)
  {
    var a :| Exec(StepsOf(quiet), s, a) == Some(m);
    var b :| Exec(StepsOf(quiet), m, b) == Some(s');
    ExecConcat(StepsOf(quiet), s, a, b);
  }

  lemma OneStep(s: Sup, l: Label, quiet: bool) returns (s': Sup)
    requires Reachable(s) && Step(s, l).Some? && Tidy(s, l) && (quiet ==> !l.StopToken?)
    ensures Step(s, l) == Some(s') && Leads(s, s', quiet)
  {
    s' := Step(s, l).value;
    ReachStep(s, l);
    assert [l][..|[l]| - 1] == [];
    assert Exec(StepsOf(quiet), s, []) == Some(s);
    assert Exec(StepsOf(quiet), s, [l]) == StepsOf(quiet)(s, l) == Some(s');
  }

  lemma ReachableOk(s: Sup)
    requires Reachable(s)
    ensures Ok(s)
  {
    var run :| Exec(Step, Empty(), run) == Some(s);
    OkHolds(run);
  }

  // ---------------------------------------------------------------------------------------------
  // Bringing goroutines to their end

  /** Waiters have been told, and nothing else. */
  predicate ShutTold(shut: Shut, shut': Shut)
  {
    match shut
    case Waits(waits) =>
      && shut'.Waits? && shut'.waits.Keys == waits.Keys
      && forall id :: id in waits ==>
           shut'.waits[id] == waits[id] || (waits[id].Registered? && shut'.waits[id].Woken?)
    case _ => shut' == shut
  }

  predicate SamePolicies(t: map<Id, Svc>, t': map<Id, Svc>)
  {
    t'.Keys == t.Keys
    && forall id :: id in t ==> t'[id].policy == t[id].policy && t'[id].healthChecked == t[id].healthChecked
  }

  /** From s to s' only goroutine g has moved. */
  ghost predicate OnlyMoved(s: Sup, s': Sup, g: nat)
  {
    && g < |s.gs| && |s'.gs| == |s.gs| && s'.gs[g].id == s.gs[g].id
    && (forall k :: 0 <= k < |s.gs| && k != g ==> s'.gs[k] == s.gs[k])
    && s'.mu == s.mu && s'.terminating == s.terminating && s'.deny == s.deny
    && SamePolicies(s.loaded, s'.loaded)
    && (forall id :: id in s.loaded && id != s.gs[g].id ==> s'.loaded[id] == s.loaded[id])
    && s'.running <= s.running
    && ShutTold(s.shut, s'.shut)
  }

  lemma GoMoves(s: Sup, g: nat, l: RunLabel)
    requires GoStep(s, g, l).Some?
    ensures OnlyMoved(s, GoStep(s, g, l).value, g)
    ensures GoStep(s, g, l).value.gs[g].run == RunStep(s.gs[g].run, l, s.loaded[s.gs[g].id].state).value
    ensures GoStep(s, g, l).value.gs[g].listening == s.gs[g].listening
    ensures GoStep(s, g, l).value.loaded[s.gs[g].id].stop == s.loaded[s.gs[g].id].stop
  {
  }

  lemma MovesOn(s: Sup, m: Sup, s': Sup, g: nat)
    requires OnlyMoved(s, m, g) && OnlyMoved(m, s', g)
    ensures OnlyMoved(s, s', g)
  {
  }

  lemma OneGo(s: Sup, g: nat, l: RunLabel, quiet: bool) returns (s': Sup)
    requires Reachable(s) && GoStep(s, g, l).Some?
    ensures GoStep(s, g, l) == Some(s') && Leads(s, s', quiet) && OnlyMoved(s, s', g)
    ensures s'.gs[g].run == RunStep(s.gs[g].run, l, s.loaded[s.gs[g].id].state).value
    ensures s'.gs[g].listening == s.gs[g].listening
    ensures s'.loaded[s.gs[g].id].stop == s.loaded[s.gs[g].id].stop
  {
    GoMoves(s, g, l);
    s' := OneStep(s, Go(g, l), quiet);
  }

  lemma ListenMoves(s: Sup, g: nat)
    requires g < |s.gs| && s.gs[g].listening && s.gs[g].id in s.loaded && s.loaded[s.gs[g].id].stop
    ensures Step(s, Listen(g)).Some? && OnlyMoved(s, Step(s, Listen(g)).value, g)
    ensures Step(s, Listen(g)).value.loaded == s.loaded[s.gs[g].id := s.loaded[s.gs[g].id].(stop := false)]
    ensures Step(s, Listen(g)).value.shut == s.shut
    ensures Step(s, Listen(g)).value.gs[g].run == s.gs[g].run.(ctxDone := true)
  {
  }

  lemma TokenMoves(s: Sup, g: nat)
    requires g < |s.gs| && s.gs[g].id in s.loaded
    ensures Step(s, StopToken(s.gs[g].id)).Some?
    ensures var m := Step(s, StopToken(s.gs[g].id)).value;
      OnlyMoved(s, m, g) && m.gs == s.gs && m.loaded[s.gs[g].id].stop
  {
  }

  lemma Known(s: Sup, g: nat)
    requires Reachable(s) && g < |s.gs|
    ensures s.gs[g].id in s.loaded && RunInv(s.gs[g].run) && Listens(s.gs[g]) && Calm(s.gs[g].run)
  {
    ReachableOk(s);
  }

  /** Goroutine g takes the stop token of its service. */
  lemma TakeToken(s: Sup, g: nat, quiet: bool) returns (s': Sup)
    requires Reachable(s) && g < |s.gs| && !s.gs[g].run.ctxDone
    requires s.gs[g].id in s.loaded && s.loaded[s.gs[g].id].stop
    ensures Leads(s, s', quiet) && OnlyMoved(s, s', g) && s'.gs[g].run.ctxDone
  {
    Known(s, g);
    ListenMoves(s, g);
    s' := OneStep(s, Listen(g), quiet);
  }

  /** A cancelled goroutine can be brought to its end, and nothing else need move. */
  lemma {:induction false} DriveDone(s: Sup, g: nat, quiet: bool) returns (s': Sup)
    requires Reachable(s) && g < |s.gs| && s.gs[g].run.ctxDone && s.gs[g].id in s.loaded
    ensures Leads(s, s', quiet) && OnlyMoved(s, s', g) && s'.gs[g].run.main.Exited? && s'.gs[g].run.ctxDone
    ensures s'.gs[g].listening == s.gs[g].listening
    ensures s'.loaded[s.gs[g].id].stop == s.loaded[s.gs[g].id].stop
    decreases Left(s.gs[g].run)
  {
    var r := s.gs[g].run;
    if r.main.Exited? {
      LeadsNowhere(s, quiet);
      s' := s;
    } else {
      Known(s, g);
      NextIsCloser(r, s.loaded[s.gs[g].id].state);
      StaysDone(r, s.loaded[s.gs[g].id].state);
      var m := OneGo(s, g, NextLabel(r), quiet);
      s' := DriveDone(m, g, quiet);
      LeadsOn(s, m, s', quiet);
      MovesOn(s, m, s', g);
    }
  }

  lemma LiveIsEarly(G: Gor)
    requires Listens(G) && !G.run.ctxDone
    ensures MainRank(G.run.main) > MainRank(Deleting(ROk))
  {
  }

  /** One step of a live goroutine towards its end. */
  lemma LiveGo(s: Sup, g: nat, quiet: bool) returns (s': Sup)
    requires Reachable(s) && g < |s.gs| && !Endless(s.gs[g].run) && !s.gs[g].run.ctxDone && s.gs[g].id in s.loaded
    ensures Leads(s, s', quiet) && OnlyMoved(s, s', g) && !Endless(s'.gs[g].run)
    ensures LiveLeft(s'.gs[g].run) < LiveLeft(s.gs[g].run)
    ensures s'.loaded[s.gs[g].id].stop == s.loaded[s.gs[g].id].stop
  {
    Known(s, g);
    LiveIsEarly(s.gs[g]);
    LiveIsCloser(s.gs[g].run, s.loaded[s.gs[g].id].state);
    s' := OneGo(s, g, LiveLabel(s.gs[g].run), quiet);
  }

  /** So can a live one that is not endless. */
  lemma {:induction false} DriveLive(s: Sup, g: nat, quiet: bool) returns (s': Sup)
    requires Reachable(s) && g < |s.gs| && !Endless(s.gs[g].run) && s.gs[g].id in s.loaded
    ensures Leads(s, s', quiet) && OnlyMoved(s, s', g) && s'.gs[g].run.main.Exited? && s'.gs[g].run.ctxDone
    ensures s'.loaded[s.gs[g].id].stop == s.loaded[s.gs[g].id].stop
    decreases LiveLeft(s.gs[g].run)
  {
    if s.gs[g].run.ctxDone {
      s' := DriveDone(s, g, quiet);
    } else {
      var m := LiveGo(s, g, quiet);
      s' := DriveLive(m, g, quiet);
      LeadsOn(s, m, s', quiet);
      MovesOn(s, m, s', g);
    }
  }

  /** Any goroutine can be stopped and brought to its end, and nothing else need move. */
  lemma DriveOut(s: Sup, g: nat) returns (s': Sup)
    requires Reachable(s) && g < |s.gs|
    ensures Leads(s, s', false) && OnlyMoved(s, s', g) && s'.gs[g].run.main.Exited?
  {
    Known(s, g);
    if s.gs[g].run.ctxDone {
      s' := DriveDone(s, g, false);
    } else {
      TokenMoves(s, g);
      var a := OneStep(s, StopToken(s.gs[g].id), false);
      var b := TakeToken(a, g, false);
      Known(b, g);
      s' := DriveDone(b, g, false);
      LeadsOn(s, a, b, false);
      LeadsOn(s, b, s', false);
      MovesOn(s, a, b, g);
      MovesOn(s, b, s', g);
    }
  }

  // ---------------------------------------------------------------------------------------------
  // Shutdown up to its wait

  /** From s to s' only Shutdown has moved. */
  ghost predicate OnlyWaits(s: Sup, s': Sup)
  {
    && s'.gs == s.gs && s'.mu == s.mu && s'.terminating == s.terminating && s.shut.Waits? && s'.shut.Waits? && s'.shut.waits.Keys == s.shut.waits.Keys
    && s'.loaded.Keys == s.loaded.Keys && forall id :: id in s.loaded ==> s'.loaded[id].state == s.loaded[id].state
  }

  function AfterSend(w: Wait): Wait {
    if w.Unsent? then Sent else w
  }

  function AfterWait(w: Wait, down: bool): Wait {
    if !w.Sent? then w else if down then Woken else Registered
  }

  lemma KeysLoaded(s: Sup)
    requires Reachable(s) && s.shut.Waits?
    ensures s.shut.waits.Keys == s.loaded.Keys
  {
    ReachableOk(s);
  }

  lemma SendOne(s: Sup, id: Id, quiet: bool) returns (s': Sup)
    requires Reachable(s) && s.shut.Waits? && id in s.shut.waits && s.shut.waits[id].Unsent? && id in s.loaded
    ensures Leads(s, s', quiet) && OnlyWaits(s, s')
    ensures s'.shut.waits == s.shut.waits[id := Sent]
    ensures s'.loaded == s.loaded[id := s.loaded[id].(stop := true)]
  {
    s' := OneStep(s, ShutdownSend(id), quiet);
  }

  /** Every service that has not been sent a stop token is sent one. */
  lemma {:induction false} SendAll(s: Sup, todo: set<Id>, quiet: bool) returns (s': Sup)
    requires Reachable(s) && s.shut.Waits?
    requires forall id :: id in todo <==> id in s.shut.waits && s.shut.waits[id].Unsent?
    ensures Leads(s, s', quiet) && OnlyWaits(s, s')
    ensures forall id :: id in s.shut.waits ==> s'.shut.waits[id] == AfterSend(s.shut.waits[id])
    ensures forall id :: id in s.loaded ==> s'.loaded[id].stop == (s.loaded[id].stop || id in todo)
    decreases |todo|
  {
    if todo == {} {
      LeadsNowhere(s, quiet);
      s' := s;
    } else {
      KeysLoaded(s);
      var id :| id in todo;
      var m := SendOne(s, id, quiet);
      s' := SendAll(m, todo - {id}, quiet);
      LeadsOn(s, m, s', quiet);
    }
  }

  predicate AllSent(shut: Shut) {
    shut.Waits? && forall id :: id in shut.waits ==> !shut.waits[id].Unsent?
  }

  lemma WaitOne(s: Sup, id: Id, quiet: bool) returns (s': Sup)
    requires Reachable(s) && AllSent(s.shut) && id in s.shut.waits && s.shut.waits[id].Sent? && id in s.loaded
    ensures Leads(s, s', quiet) && OnlyWaits(s, s') && AllSent(s'.shut) && s'.loaded == s.loaded
    ensures s'.shut.waits == s.shut.waits[id := AfterWait(Sent, Down(s.loaded[id].state))]
  {
    s' := OneStep(s, WaitDown(id), quiet);
  }

  /** Every wait that has not begun looks at its service: it is over if that is down, and registered else. */
  lemma {:induction false} WaitAll(s: Sup, todo: set<Id>, quiet: bool) returns (s': Sup)
    requires Reachable(s) && AllSent(s.shut)
    requires forall id :: id in todo <==> id in s.shut.waits && s.shut.waits[id].Sent?
    ensures Leads(s, s', quiet) && OnlyWaits(s, s')
    ensures forall id :: id in s.shut.waits ==>
      id in s.loaded && s'.shut.waits[id] == AfterWait(s.shut.waits[id], Down(s.loaded[id].state))
    decreases |todo|
  {
    KeysLoaded(s);
    if todo == {} {
      LeadsNowhere(s, quiet);
      s' := s;
    } else {
      var id :| id in todo;
      var m := WaitOne(s, id, quiet);
      s' := WaitAll(m, todo - {id}, quiet);
      LeadsOn(s, m, s', quiet);
    }
  }

  /** Shutdown sends all its tokens and begins all its waits. */
  lemma SendAndWait(s: Sup, quiet: bool) returns (s': Sup)
    requires Reachable(s) && s.shut.Waits?
    ensures Leads(s, s', quiet) && OnlyWaits(s, s')
    ensures forall id :: id in s.shut.waits ==>
      id in s.loaded && s'.shut.waits[id] == AfterWait(AfterSend(s.shut.waits[id]), Down(s.loaded[id].state))
  {
    var unsent := set id | id in s.shut.waits && s.shut.waits[id].Unsent?;
    var m := SendAll(s, unsent, quiet);
    var sent := set id | id in m.shut.waits && m.shut.waits[id].Sent?;
    s' := WaitAll(m, sent, quiet);
    LeadsOn(s, m, s', quiet);
  }
}
