/** The table of services (system.go): Load, Start, Stop, DenyNewServices and Shutdown over any number of
    services, cut at the two mutexes, the channels and the steps of each service's run. */
module Supervisor {
  import opened Common
  import opened Restart
  import opened ServiceRun

  type Id = string

  /** A ServiceRunner: serial tells two runners apart, stop is the token in stopCh. */
  datatype Svc = Svc(serial: nat, policy: Policy, healthChecked: bool, state: SState, stop: bool)

  datatype Service = Service(id: Id, policy: Policy, healthChecked: bool)

  /** Who holds s.mu. Start holds it throughout its loop; rest is what the loop has left. */
  datatype Mu =
    | Free
    | Picking(rest: seq<Id>)
    | Claimed(id: Id, rest: seq<Id>)      // in running, goroutine not spawned yet
    | Awaiting(g: nat, rest: seq<Id>)     // receiving from runNotify of goroutine g

  /** The goroutine of one Start of id; listening is its goroutine that waits for the stop token. */
  datatype Gor = Gor(id: Id, run: Run, listening: bool)

  datatype Wait = Unsent | Sent | Registered | Woken

  /** The one call of Shutdown that set terminating. */
  datatype Shut = NotCalled | Waits(waits: map<Id, Wait>) | Stopped(targets: set<Id>)

  datatype Sup = Sup(loaded: map<Id, Svc>, running: set<Id>, wg: int, mu: Mu, deny: bool, terminating: bool,
                     gs: seq<Gor>, shut: Shut)

  function Empty(): Sup {
    Sup(map[], {}, 0, Free, false, false, [], NotCalled)
  }

  datatype Label =
    | Load(services: seq<Service>)
    | StartCall(ids: seq<Id>)
    | StartNext
    | StartSpawn
    | StartNotified
    | StartEnd
    | Go(g: nat, l: RunLabel)
    | Listen(g: nat)
    | ListenEnd(g: nat)
    | StopToken(id: Id)
    | Deny
    | ShutdownCall
    | ShutdownSend(id: Id)
    | WaitDown(id: Id)
    | WaitEnd

  /** Load's loop: a service that is already loaded is ignored. */
  function LoadAll(table: map<Id, Svc>, services: seq<Service>): map<Id, Svc>
  {
    if services == [] then table
    else
      var t := LoadAll(table, services[..|services| - 1]);
      var s := Last(services);
      if s.id in t then t else t[s.id := Svc(|t|, s.policy, s.healthChecked, Initialized, false)]
  }

  predicate Closed(s: Sup) {
    s.terminating || s.deny
  }

  function StartStep(s: Sup, l: Label): Option<Sup>
    requires l.StartCall? || l.StartNext? || l.StartSpawn? || l.StartNotified? || l.StartEnd?
  {
    match l
    case StartCall(ids) =>
      if !s.mu.Free? then None else if Closed(s) then Some(s) else Some(s.(mu := Picking(ids)))
    case StartNext =>
      if !s.mu.Picking? || s.mu.rest == [] then None
      else
        var id, rest := s.mu.rest[0], s.mu.rest[1..];
        if id !in s.loaded || id in s.running then Some(s.(mu := Picking(rest)))
        else Some(s.(mu := Claimed(id, rest), running := s.running + {id}))
    case StartSpawn =>
      if !s.mu.Claimed? || s.mu.id !in s.loaded then None
      else
        var svc := s.loaded[s.mu.id];
        Some(s.(mu := Awaiting(|s.gs|, s.mu.rest), wg := s.wg + 1,
                gs := s.gs + [Gor(s.mu.id, NewRun(svc.policy, svc.healthChecked), true)]))
    case StartNotified =>
      if s.mu.Awaiting? && s.mu.g < |s.gs| && s.gs[s.mu.g].run.notified then Some(s.(mu := Picking(s.mu.rest))) else None
    case StartEnd =>
      if s.mu == Picking([]) then Some(s.(mu := Free)) else None
  }

  function WithState(s: Sup, id: Id, note: Option<Note>): map<Id, Svc>
    requires id in s.loaded
  {
    if note.Some? && note.value.State? then s.loaded[id := s.loaded[id].(state := note.value.state)] else s.loaded
  }

  /** notifyEvent(down): every registered waiter gets its token. */
  function Notified(shut: Shut, id: Id): Shut
  {
    if shut.Waits? && id in shut.waits && shut.waits[id].Registered? then Waits(shut.waits[id := Woken]) else shut
  }

  /** A step of goroutine g, with what it does to the table. */
  function GoStep(s: Sup, g: nat, l: RunLabel): Option<Sup>
  {
    if g >= |s.gs| || l.Cancel? || s.gs[g].id !in s.loaded then None
    else
      var G := s.gs[g];
      match RunStep(G.run, l, s.loaded[G.id].state)
      case None => None
      case Some(r) =>
        Some(s.(gs := s.gs[g := G.(run := r)],
                loaded := WithState(s, G.id, NoteOf(G.run, l)),
                wg := if l.Main? && G.run.main.Returned? then s.wg - 1 else s.wg,
                running := if l.Main? && G.run.main.Deleting? then s.running - {G.id} else s.running,
                shut := if l.Main? && (G.run.main.Tell? || G.run.main.PostTell?) then Notified(s.shut, G.id) else s.shut))
  }

  function ListenStep(s: Sup, g: nat): Option<Sup>
  {
    if g >= |s.gs| || !s.gs[g].listening || s.gs[g].id !in s.loaded || !s.loaded[s.gs[g].id].stop then None
    else
      var G := s.gs[g];
      Some(s.(gs := s.gs[g := G.(run := G.run.(ctxDone := true), listening := false)],
              loaded := s.loaded[G.id := s.loaded[G.id].(stop := false)]))
  }

  function ShutStep(s: Sup, l: Label): Option<Sup>
    requires l.ShutdownCall? || l.ShutdownSend? || l.WaitDown? || l.WaitEnd?
  {
    match l
    case ShutdownCall =>
      if !s.mu.Free? then None
      else if s.terminating then Some(s)
      else Some(s.(terminating := true, shut := Waits(map id | id in s.loaded :: Unsent)))
    case ShutdownSend(id) =>
      if !s.shut.Waits? || id !in s.shut.waits || !s.shut.waits[id].Unsent? || id !in s.loaded then None
      else Some(s.(shut := Waits(s.shut.waits[id := Sent]), loaded := s.loaded[id := s.loaded[id].(stop := true)]))
    case WaitDown(id) =>
      if !s.shut.Waits? || id !in s.shut.waits || !s.shut.waits[id].Sent? || id !in s.loaded
         || (exists j :: j in s.shut.waits && s.shut.waits[j].Unsent?) then None
      else Some(s.(shut := Waits(s.shut.waits[id := if Down(s.loaded[id].state) then Woken else Registered])))
    case WaitEnd =>
      if !s.shut.Waits? || exists j :: j in s.shut.waits && !s.shut.waits[j].Woken? then None
      else Some(s.(shut := Stopped(s.shut.waits.Keys)))
  }

  function Step(s: Sup, l: Label): Option<Sup>
  {
    match l
    case Load(services) =>
      if !s.mu.Free? then None else if Closed(s) then Some(s) else Some(s.(loaded := LoadAll(s.loaded, services)))
    case Go(g, rl) => GoStep(s, g, rl)
    case Listen(g) => ListenStep(s, g)
    case ListenEnd(g) =>
      if g < |s.gs| && s.gs[g].run.ctxDone then Some(s.(gs := s.gs[g := s.gs[g].(listening := false)])) else None
    case StopToken(id) =>
      if id !in s.loaded then None else Some(s.(loaded := s.loaded[id := s.loaded[id].(stop := true)]))
    case Deny => if s.mu.Free? then Some(s.(deny := true)) else None
    case ShutdownCall => ShutStep(s, l)
    case ShutdownSend(_) => ShutStep(s, l)
    case WaitDown(_) => ShutStep(s, l)
    case WaitEnd => ShutStep(s, l)
    case _ => StartStep(s, l)
  }

  // ---------------------------------------------------------------------------------------------
  // Mutual exclusion

  /** The goroutine has claimed its id and has not removed the claim. */
  predicate Holding(m: MainPc) {
    !m.Store? && !m.Tell? && !m.Exited?
  }

  predicate BeforeDone(m: MainPc) {
    Holding(m) && !m.Deleting?
  }

  function CountBeforeDone(gs: seq<Gor>): nat
  {
    if gs == [] then 0
    else CountBeforeDone(gs[..|gs| - 1]) + if BeforeDone(Last(gs).run.main) then 1 else 0
  }

  predicate Holds(s: Sup, g: nat, id: Id) {
    g < |s.gs| && s.gs[g].id == id && Holding(s.gs[g].run.main)
  }

  ghost predicate Exclusive(s: Sup)
  {
    && (forall g, h :: 0 <= g < h < |s.gs| && s.gs[g].id == s.gs[h].id ==>
          !(Holding(s.gs[g].run.main) && Holding(s.gs[h].run.main)))
    && (forall id :: id in s.running <==> (s.mu.Claimed? && s.mu.id == id) || exists g :: Holds(s, g, id))
    && (s.mu.Claimed? ==> s.mu.id in s.loaded && !exists g :: Holds(s, g, s.mu.id))
  }

  ghost predicate TableInv(s: Sup)
  {
    && Exclusive(s)
    && (forall g :: 0 <= g < |s.gs| ==> s.gs[g].id in s.loaded && RunInv(s.gs[g].run))
    && (forall g :: 0 <= g < |s.gs| && !s.gs[g].run.notified ==> s.mu.Awaiting? && s.mu.g == g)
    && (s.mu.Awaiting? ==> s.mu.g < |s.gs|)
    && s.wg == CountBeforeDone(s.gs)
    && (!s.mu.Free? ==> !Closed(s))
  }

  /** Load replaces no runner, and a new runner starts Initialized. */
  lemma {:induction false} LoadKeeps(table: map<Id, Svc>, services: seq<Service>)
    ensures forall id :: id in table ==> id in LoadAll(table, services) && LoadAll(table, services)[id] == table[id]
    ensures forall id :: id in LoadAll(table, services) && id !in table ==>
      && LoadAll(table, services)[id].state == Initialized && !LoadAll(table, services)[id].stop
  {
    if services != [] {
      LoadKeeps(table, services[..|services| - 1]);
    }
  }

  predicate FirstOf(services: seq<Service>, id: Id, j: int) {
    0 <= j < |services| && services[j].id == id && forall i :: 0 <= i < j ==> services[i].id != id
  }

  lemma {:induction false} NotAmong(table: map<Id, Svc>, services: seq<Service>, id: Id)
    requires id !in LoadAll(table, services)
    ensures forall i :: 0 <= i < |services| ==> services[i].id != id
  {
    if services != [] {
      var init := services[..|services| - 1];
      NotAmong(table, init, id);
      assert forall i :: 0 <= i < |init| ==> services[i] == init[i];
    }
  }

  function IdsOf(services: seq<Service>): set<Id>
  {
    if services == [] then {} else IdsOf(services[..|services| - 1]) + {Last(services).id}
  }

  /** Load loads exactly what was loaded or asked for. */
  lemma {:induction false} LoadKeys(table: map<Id, Svc>, services: seq<Service>)
    ensures LoadAll(table, services).Keys == table.Keys + IdsOf(services)
  {
    if services != [] {
      LoadKeys(table, services[..|services| - 1]);
    }
  }

  /** A new runner is that of the first service of its id: of its kind, and with its health check. */
  lemma {:induction false} LoadMakes(table: map<Id, Svc>, services: seq<Service>, id: Id) returns (j: int)
    requires id in LoadAll(table, services) && id !in table
    ensures FirstOf(services, id, j)
    ensures LoadAll(table, services)[id].policy == services[j].policy
    ensures LoadAll(table, services)[id].healthChecked == services[j].healthChecked
  {
    var init := services[..|services| - 1];
    if id in LoadAll(table, init) {
      j := LoadMakes(table, init, id);
    } else {
      NotAmong(table, init, id);
      assert forall i :: 0 <= i < |init| ==> services[i] == init[i];
      j := |services| - 1;
    }
  }

  /** Two runners in the table never have the same serial. */
  ghost predicate SerialsApart(table: map<Id, Svc>)
  {
    && (forall id :: id in table ==> table[id].serial < |table|)
    && (forall id, other :: id in table && other in table && id != other ==> table[id].serial != table[other].serial)
  }

  lemma {:induction false} LoadSerials(table: map<Id, Svc>, services: seq<Service>)
    requires SerialsApart(table)
    ensures SerialsApart(LoadAll(table, services))
  {
    if services != [] {
      var t, s := LoadAll(table, services[..|services| - 1]), Last(services);
      LoadSerials(table, services[..|services| - 1]);
      if s.id !in t {
        assert LoadAll(table, services).Keys == t.Keys + {s.id};
        assert |LoadAll(table, services)| == |LoadAll(table, services).Keys| == |t.Keys| + 1;
      }
    }
  }

  /** In every reachable state, runners of different services are different. */
  lemma RunnersApart(run: seq<Label>)
    requires Exec(Step, Empty(), run).Some?
    ensures SerialsApart(Exec(Step, Empty(), run).value.loaded)
  {
    forall s: Sup, l | SerialsApart(s.loaded) && Step(s, l).Some? ensures SerialsApart(Step(s, l).value.loaded) {
      SerialsStep(s, l);
    }
    InvariantHolds(Step, (s: Sup) => SerialsApart(s.loaded), Empty(), run);
  }

  lemma SerialsStay(s: Sup, l: Label)
    requires Step(s, l).Some? && !l.Load?
    ensures var t := Step(s, l).value.loaded;
      t.Keys == s.loaded.Keys && forall id :: id in t ==> t[id].serial == s.loaded[id].serial
  {
  }

  lemma SerialsStep(s: Sup, l: Label)
    requires SerialsApart(s.loaded) && Step(s, l).Some?
    ensures SerialsApart(Step(s, l).value.loaded)
  {
    if l.Load? {
      LoadSerials(s.loaded, l.services);
    } else {
      SerialsStay(s, l);
      var t := Step(s, l).value.loaded;
      assert |t| == |t.Keys| && |s.loaded| == |s.loaded.Keys|;
    }
  }

  lemma {:induction false} CountUpdate(gs: seq<Gor>, g: nat, G: Gor)
    requires g < |gs|
    ensures CountBeforeDone(gs[g := G]) + (if BeforeDone(gs[g].run.main) then 1 else 0)
         == CountBeforeDone(gs) + (if BeforeDone(G.run.main) then 1 else 0)
  {
    var v := gs[..|gs| - 1];
    if g == |v| {
      assert gs[g := G][..|gs| - 1] == v;
    } else {
      CountUpdate(v, g, G);
      assert gs[g := G][..|gs| - 1] == v[g := G];
    }
  }

  lemma CountAppend(gs: seq<Gor>, G: Gor)
    ensures CountBeforeDone(gs + [G]) == CountBeforeDone(gs) + (if BeforeDone(G.run.main) then 1 else 0)
  {
    assert (gs + [G])[..|gs + [G]| - 1] == gs;
  }

  /** How one step of a run moves through its claim. */
  lemma ClaimMoves(r: Run, l: RunLabel, cur: SState)
    requires RunStep(r, l, cur).Some?
    ensures var r' := RunStep(r, l, cur).value;
      && (Holding(r'.main) <==> Holding(r.main) && !(l.Main? && r.main.Deleting?))
      && (BeforeDone(r'.main) <==> BeforeDone(r.main) && !(l.Main? && r.main.Returned?))
      && (l.Main? && r.main.Deleting? ==> Holding(r.main))
      && (l.Main? && r.main.Returned? ==> BeforeDone(r.main))
      && (r.notified ==> r'.notified)
  {
  }

  lemma GoExclusive(s: Sup, g: nat, l: RunLabel)
    requires TableInv(s) && GoStep(s, g, l).Some?
    ensures Exclusive(GoStep(s, g, l).value)
  {
    var s' := GoStep(s, g, l).value;
    var G := s.gs[g];
    ClaimMoves(G.run, l, s.loaded[G.id].state);
    assert l.Main? && G.run.main.Deleting? ==> Holds(s, g, G.id);
    forall id | id in s'.running && !(s'.mu.Claimed? && s'.mu.id == id) ensures exists h :: Holds(s', h, id) {
      var h :| Holds(s, h, id);
      assert Holds(s', h, id);
    }
    forall h, id | Holds(s', h, id) ensures Holds(s, h, id) && id in s'.running {
      assert Holds(s, h, id);
    }
  }

  lemma GoKeeps(s: Sup, g: nat, l: RunLabel)
    requires TableInv(s) && GoStep(s, g, l).Some?
    ensures TableInv(GoStep(s, g, l).value)
  {
    var s' := GoStep(s, g, l).value;
    var G := s.gs[g];
    GoExclusive(s, g, l);
    ClaimMoves(G.run, l, s.loaded[G.id].state);
    RunInvStep(G.run, l, s.loaded[G.id].state);
    CountUpdate(s.gs, g, s'.gs[g]);
  }

  lemma StartKeeps(s: Sup, l: Label)
    requires TableInv(s)
    requires l.StartCall? || l.StartNext? || l.StartSpawn? || l.StartNotified? || l.StartEnd?
    requires StartStep(s, l).Some?
    ensures TableInv(StartStep(s, l).value)
  {
    var s' := StartStep(s, l).value;
    if l.StartNext? {
      forall id, h ensures Holds(s', h, id) <==> Holds(s, h, id) {}
    } else if l.StartSpawn? {
      SpawnKeeps(s);
    } else if l.StartNotified? {
      forall id, h ensures Holds(s', h, id) <==> Holds(s, h, id) {}
    } else {
      forall id, h ensures Holds(s', h, id) <==> Holds(s, h, id) {}
    }
  }

  lemma SpawnKeeps(s: Sup)
    requires TableInv(s) && StartStep(s, StartSpawn).Some?
    ensures TableInv(StartStep(s, StartSpawn).value)
  {
    var s' := StartStep(s, StartSpawn).value;
    var id := s.mu.id;
    CountAppend(s.gs, Last(s'.gs));
    assert Holds(s', |s.gs|, id);
    forall h, j | Holds(s, h, j) ensures Holds(s', h, j) {}
    forall h, j | Holds(s', h, j) ensures Holds(s, h, j) || (h == |s.gs| && j == id) {}
    forall h | 0 <= h < |s.gs| && s.gs[h].id == id ensures !Holding(s.gs[h].run.main) {
      if Holding(s.gs[h].run.main) {
        assert Holds(s, h, id);
      }
    }
  }

  lemma ListenKeeps(s: Sup, g: nat)
    requires TableInv(s) && ListenStep(s, g).Some?
    ensures TableInv(ListenStep(s, g).value)
  {
    var s' := ListenStep(s, g).value;
    CountUpdate(s.gs, g, s'.gs[g]);
    forall id, h ensures Holds(s', h, id) <==> Holds(s, h, id) {}
  }

  /** What leaves the goroutines and the claims alone keeps the invariant. */
  lemma SameGoroutines(s: Sup, s': Sup)
    requires TableInv(s)
    requires s'.gs == s.gs && s'.running == s.running && s'.wg == s.wg && s'.mu == s.mu
    requires s.loaded.Keys <= s'.loaded.Keys
    requires Closed(s') ==> Closed(s) || s.mu.Free?
    ensures TableInv(s')
  {
    forall id, h ensures Holds(s', h, id) <==> Holds(s, h, id) {}
  }

  lemma ListenEndKeeps(s: Sup, g: nat)
    requires TableInv(s) && Step(s, ListenEnd(g)).Some?
    ensures TableInv(Step(s, ListenEnd(g)).value)
  {
    var s' := Step(s, ListenEnd(g)).value;
    CountUpdate(s.gs, g, s'.gs[g]);
    forall id, h ensures Holds(s', h, id) <==> Holds(s, h, id) {}
  }

  lemma TableStep(s: Sup, l: Label)
    requires TableInv(s) && Step(s, l).Some?
    ensures TableInv(Step(s, l).value)
  {
    if l.Go? {
      GoKeeps(s, l.g, l.l);
    } else if l.Listen? {
      ListenKeeps(s, l.g);
    } else if l.ListenEnd? {
      ListenEndKeeps(s, l.g);
    } else if l.StartCall? || l.StartNext? || l.StartSpawn? || l.StartNotified? || l.StartEnd? {
      StartKeeps(s, l);
    } else {
      if l.Load? {
        LoadKeeps(s.loaded, l.services);
      }
      SameGoroutines(s, Step(s, l).value);
    }
  }

  lemma TableHolds(run: seq<Label>)
    requires Exec(Step, Empty(), run).Some?
    ensures TableInv(Exec(Step, Empty(), run).value)
  {
    forall s, l | TableInv(s) && Step(s, l).Some? ensures TableInv(Step(s, l).value) {
      TableStep(s, l);
    }
    InvariantHolds(Step, TableInv, Empty(), run);
  }

  /** In every reachable state: of two goroutines of one id at most one is between claim and removal, so at most one
      Run of it is live; an id is in running exactly when Start has just claimed it or a goroutine of it is in
      between; the wait group counts the goroutines before Done. */
  lemma MutualExclusion(run: seq<Label>)
    requires Exec(Step, Empty(), run).Some?
    ensures var s := Exec(Step, Empty(), run).value;
      && (forall g, h :: 0 <= g < h < |s.gs| && s.gs[g].id == s.gs[h].id ==>
            !Holding(s.gs[g].run.main) || !Holding(s.gs[h].run.main))
      && (forall id :: id in s.running <==> (s.mu.Claimed? && s.mu.id == id) || exists g :: Holds(s, g, id))
      && s.wg == CountBeforeDone(s.gs)
  {
    TableHolds(run);
  }

  /** A runner once in the table is never replaced. */
  lemma NeverReplaced(s: Sup, l: Label, id: Id)
    requires Step(s, l).Some? && id in s.loaded
    ensures var s' := Step(s, l).value;
      id in s'.loaded && s'.loaded[id].serial == s.loaded[id].serial && s'.loaded[id].policy == s.loaded[id].policy
      && s'.loaded[id].healthChecked == s.loaded[id].healthChecked
  {
    if l.Load? {
      LoadKeeps(s.loaded, l.services);
    }
  }

  /** The ctx of a run is done by its return, or by its listener, which is there for one token and takes it. */
  lemma CancelledBy(s: Sup, l: Label, g: nat)
    requires Step(s, l).Some? && g < |s.gs| && !s.gs[g].run.ctxDone
    ensures var s' := Step(s, l).value;
      && g < |s'.gs|
      && (s'.gs[g].run.ctxDone <==> l == Listen(g) || (l.Go? && l.g == g && l.l.Main? && s.gs[g].run.main.Returned?))
      && (l == Listen(g) ==>
            && s.gs[g].listening && s.loaded[s.gs[g].id].stop
            && !s'.gs[g].listening && !s'.loaded[s.gs[g].id].stop)
  {
  }

  ghost predicate FrozenSince(s: Sup, s': Sup)
  {
    TableInv(s') && Closed(s') && s'.loaded.Keys == s.loaded.Keys && s'.running <= s.running && |s'.gs| == |s.gs|
  }

  lemma FrozenStep(s: Sup, l: Label)
    requires TableInv(s) && Closed(s) && Step(s, l).Some?
    ensures FrozenSince(s, Step(s, l).value)
  {
    TableStep(s, l);
  }

  /** Once terminating or denyNewServices is set, neither map ever gains a key and no goroutine is started. */
  lemma FrozenAfterDeny(run: seq<Label>, more: seq<Label>)
    requires Exec(Step, Empty(), run).Some?
    requires Exec(Step, Empty(), run).value.terminating || Exec(Step, Empty(), run).value.deny
    requires Exec(Step, Empty(), run + more).Some?
    ensures var s := Exec(Step, Empty(), run).value;
      var s' := Exec(Step, Empty(), run + more).value;
      && (s'.terminating || s'.deny)
      && s'.loaded.Keys == s.loaded.Keys && s'.running <= s.running && |s'.gs| == |s.gs|
  {
    var s := Exec(Step, Empty(), run).value;
    TableHolds(run);
    ExecConcat(Step, Empty(), run, more);
    forall t, l | FrozenSince(s, t) && Step(t, l).Some? ensures FrozenSince(s, Step(t, l).value) {
      FrozenStep(t, l);
    }
    InvariantHolds(Step, t => FrozenSince(s, t), s, more);
  }
}
