/** The notification protocol of one service over all its runs: UpdateState, healthUpdate, health.State.Update and
    any number of waiters, cut at the two locks and at the one-slot channels. */
module Wakeups {
  import opened Common
  import opened Restart
  import opened Subscriptions

  type Tid = nat   // a thread; a waiter's channel has the number of the waiter

  /** The part of an update after the lock is released: notifyEvent of each of evs, chs being the rest of the cloned list. */
  datatype Post = Tell(evs: seq<Ev>) | Sending(ev: Ev, chs: seq<Tid>, evs: seq<Ev>)

  datatype Thread =
    | UpLocked(next: SState)                  // UpdateState: mutex held, state not stored yet
    | UpStored                                // UpdateState: mutex held, state stored, flags not read yet
    | UpPost(post: Post)
    | HUpdate(healthy: bool)                  // health.State.Update: about to take the health lock
    | HSending(chs: seq<nat>)                 // health.State.Update: health channels still to send to
    | Waiter(evs: seq<Ev>, at: WaitPc)

  datatype WaitPc =
    | Lookup
    | Polling
    | Sub(i: nat)                             // about to subscribe to evs[i]
    | SubLocked(i: nat)
    | SubMiss(i: nat)                         // not in that state, mutex still held
    | SubHit(i: nat)                          // in that state, about to send to itself
    | Selecting
    | Unsub(j: nat, woken: bool)              // deferred: evs[..j] still to unsubscribe from
    | Returned(woken: bool)                   // Wait returned, nil if woken

  datatype Consumer = COff | CIdle | CGot | CLocked | CPost(post: Post)

  datatype Owner = Nobody | Held(t: Tid) | HeldByConsumer

  /** Where the current run is: Beginning before it stores Starting, Live while its health channel is subscribed. */
  datatype Phase = Idle | Beginning | PreSub | Live | Unsubbed

  datatype World = World(
    registered: bool, hc: bool, state: SState, health: Option<bool>,
    subs: map<Ev, seq<Tid>>, mu: Owner, thr: map<Tid, Thread>,
    phase: Phase, ctxLive: bool, hsubs: seq<nat>, h: nat, queue: nat, consumer: Consumer,
    token: set<Tid>, got: set<Tid>)

  function Begin(hc: bool): World {
    World(false, hc, Initialized, None, map[], Nobody, map[], Idle, false, [], 0, 0, COff, {}, {})
  }

  datatype Label =
    | Register | RunBegin | HealthSubscribe | CtxCancel | HealthUnsubscribe | RunEnd
    | Update(t: Tid, next: SState) | Store(t: Tid) | ReadFlags(t: Tid) | TellNext(t: Tid)
    | HSpawn(t: Tid, healthy: bool) | HLock(t: Tid) | HSend(t: Tid) | HInit
    | CTake | CExit | CLock | CEval | CTell
    | WaitBegin(t: Tid, evs: seq<Ev>) | WaitLook(t: Tid, cancelled: bool)
    | SubLock(t: Tid) | SubCheck(t: Tid) | SubAppend(t: Tid) | SubPut(t: Tid)
    | WaitTake(t: Tid) | WaitCancel(t: Tid) | UnsubOne(t: Tid)

  predicate In(w: World, ev: Ev) {
    InState(ev, w.state, w.hc, w.health)
  }

  function Put(w: World, c: Tid): World {
    w.(token := w.token + {c}, got := w.got + {c})
  }

  function Set(w: World, t: Tid, x: Thread): World {
    w.(thr := w.thr[t := x])
  }

  function Remove(w: World, t: Tid): World {
    w.(thr := w.thr - {t})
  }

  /** One step of notifyEvent: cloning the list under the mutex, or one non-blocking send. */
  function PostStep(w: World, p: Post): Option<(World, Post)>
  {
    match p
    case Tell(evs) =>
      if evs == [] || !w.mu.Nobody? then None else Some((w, Sending(evs[0], Of(w.subs, evs[0]), evs[1..])))
    case Sending(ev, chs, evs) =>
      if chs == [] then Some((w, Tell(evs))) else Some((Put(w, chs[0]), Sending(ev, chs[1..], evs)))
  }

  predicate HealthRuns(p: Phase) {
    p.Live? || p.Unsubbed?
  }

  function RunLabelStep(w: World, l: Label): Option<World>
  {
    match l
    case Register => Some(w.(registered := true))
    case RunBegin =>
      if !w.registered || !w.phase.Idle? then None
      else Some(w.(phase := Beginning, ctxLive := true, h := w.h + 1, queue := 0))
    case HealthSubscribe =>
      if !w.hc || !w.phase.PreSub? then None
      else Some(w.(phase := Live, hsubs := w.hsubs + [w.h], consumer := CIdle))
    case CtxCancel => Some(w.(ctxLive := false))
    case HealthUnsubscribe =>
      if !w.phase.Live? || (exists t :: t in w.thr && w.thr[t] == UpLocked(Running)) then None
      else Some(w.(phase := Unsubbed, hsubs := SwapDelete(w.hsubs, 0, w.h)))
    case RunEnd =>
      if !(w.phase.PreSub? || (w.phase.Unsubbed? && w.consumer.COff?))
         || (exists t :: t in w.thr && (w.thr[t] == UpLocked(Running) || w.thr[t] == HUpdate(true))) then None
      else Some(w.(phase := Idle))
    case _ => None
  }

  function UpdateStep(w: World, l: Label): Option<World>
  {
    match l
    case Update(t, next) =>
      if !w.registered || t in w.thr || !w.mu.Nobody?
         || (next.Running? && !w.phase.PreSub? && !w.phase.Live?) || (next.Starting? && !w.phase.Beginning?) then None
      else Some(Set(w, t, UpLocked(next)).(mu := Held(t)))
    case Store(t) =>
      if t !in w.thr || !w.thr[t].UpLocked? then None
      else
        var next := w.thr[t].next;
        Some(Set(w, t, UpStored).(state := next,
                                  phase := if next.Starting? && w.phase.Beginning? then PreSub else w.phase))
    case ReadFlags(t) =>
      if t !in w.thr || !w.thr[t].UpStored? then None
      else Some(Set(w, t, UpPost(Tell(Flags(w.state, w.hc, w.health)))).(mu := Nobody))
    case TellNext(t) =>
      if t !in w.thr || !w.thr[t].UpPost? then None
      else if w.thr[t].post == Tell([]) then Some(Remove(w, t))
      else
        (match PostStep(w, w.thr[t].post)
         case None => None
         case Some(r) => Some(Set(r.0, t, UpPost(r.1))))
    case _ => None
  }

  function HealthStep(w: World, l: Label): Option<World>
  {
    match l
    case HSpawn(t, healthy) =>
      if t in w.thr || (healthy && !HealthRuns(w.phase)) then None else Some(Set(w, t, HUpdate(healthy)))
    case HLock(t) =>
      if t !in w.thr || !w.thr[t].HUpdate? then None
      else if w.health == Some(w.thr[t].healthy) then Some(Set(w, t, HSending([])))
      else Some(Set(w, t, HSending(w.hsubs)).(health := Some(w.thr[t].healthy)))
    case HSend(t) =>
      if t !in w.thr || !w.thr[t].HSending? then None
      else if w.thr[t].chs == [] then Some(Remove(w, t))
      else Some(Set(w, t, HSending(w.thr[t].chs[1..])).(
                queue := if w.thr[t].chs[0] == w.h && w.queue < 2 then w.queue + 1 else w.queue))
    case HInit => if HealthRuns(w.phase) then Some(w.(health := None)) else None
    case _ => None
  }

  /** The goroutine that turns health changes into healthUpdate calls. */
  function ConsumerStep(w: World, l: Label): Option<World>
  {
    match l
    case CTake => if w.consumer.CIdle? && w.queue > 0 then Some(w.(consumer := CGot, queue := w.queue - 1)) else None
    case CExit => if w.consumer.CIdle? && !w.ctxLive then Some(w.(consumer := COff)) else None
    case CLock =>
      if !w.consumer.CGot? || !w.mu.Nobody? then None
      else if w.state != Running then Some(w.(consumer := CIdle))
      else Some(w.(consumer := CLocked, mu := HeldByConsumer))
    case CEval =>
      if !w.consumer.CLocked? then None
      else Some(w.(consumer := CPost(Tell(if In(w, UpEv) then [UpEv] else [])), mu := Nobody))
    case CTell =>
      if !w.consumer.CPost? then None
      else if w.consumer.post == Tell([]) then Some(w.(consumer := CIdle))
      else
        (match PostStep(w, w.consumer.post)
         case None => None
         case Some(r) => Some(r.0.(consumer := CPost(r.1))))
    case _ => None
  }

  /** Where a step takes waiter t, which waits for evs and is at pc. */
  function WaitNext(w: World, evs: seq<Ev>, pc: WaitPc, l: Label): Option<WaitPc>
    requires WaitLabel(l)
  {
    match l
    case WaitLook(_, cancelled) =>
      if pc.Lookup? then Some(if w.registered then Sub(0) else Polling)
      else if pc.Polling? then Some(if w.registered then Sub(0) else if cancelled then Returned(false) else Polling)
      else None
    case SubLock(_) =>
      if !pc.Sub? then None
      else if pc.i >= |evs| then Some(Selecting)
      else if w.mu.Nobody? then Some(SubLocked(pc.i))
      else None
    case SubCheck(_) =>
      if !pc.SubLocked? || pc.i >= |evs| then None else Some(if In(w, evs[pc.i]) then SubHit(pc.i) else SubMiss(pc.i))
    case SubAppend(_) => if pc.SubMiss? && pc.i < |evs| then Some(Sub(pc.i + 1)) else None
    case SubPut(_) => if pc.SubHit? then Some(Sub(pc.i + 1)) else None
    case WaitTake(t) => if pc.Selecting? && t in w.token then Some(Unsub(|evs|, true)) else None
    case WaitCancel(_) => if pc.Selecting? then Some(Unsub(|evs|, false)) else None
    case UnsubOne(_) =>
      if !pc.Unsub? || pc.j > |evs| then None
      else if pc.j == 0 then Some(Returned(pc.woken))
      else if w.mu.Nobody? then Some(Unsub(pc.j - 1, pc.woken))
      else None
  }

  predicate WaitLabel(l: Label) {
    l.WaitLook? || l.SubLock? || l.SubCheck? || l.SubAppend? || l.SubPut? || l.WaitTake? || l.WaitCancel? || l.UnsubOne?
  }

  function WaitMu(pc': WaitPc, l: Label, mu: Owner): Owner
    requires WaitLabel(l)
  {
    if l.SubLock? && pc'.SubLocked? then Held(l.t)
    else if (l.SubCheck? && pc'.SubHit?) || l.SubAppend? then Nobody
    else mu
  }

  function WaitSubs(evs: seq<Ev>, pc: WaitPc, l: Label, subs: map<Ev, seq<Tid>>): map<Ev, seq<Tid>>
    requires WaitLabel(l)
  {
    if l.SubAppend? && pc.SubMiss? && pc.i < |evs| then subs[evs[pc.i] := Of(subs, evs[pc.i]) + [l.t]]
    else if l.UnsubOne? && pc.Unsub? && 0 < pc.j <= |evs| then
      subs[evs[pc.j - 1] := SwapDelete(Of(subs, evs[pc.j - 1]), 0, l.t)]
    else subs
  }

  function WaitStep(w: World, l: Label): Option<World>
  {
    if l.WaitBegin? then
      if l.t in w.thr then None else Some(Set(w, l.t, Waiter(l.evs, Lookup)))
    else if !WaitLabel(l) || l.t !in w.thr || !w.thr[l.t].Waiter? then None
    else
      var x := w.thr[l.t];
      match WaitNext(w, x.evs, x.at, l)
      case None => None
      case Some(pc) =>
        Some(w.(thr := w.thr[l.t := Waiter(x.evs, pc)],
                mu := WaitMu(pc, l, w.mu),
                subs := WaitSubs(x.evs, x.at, l, w.subs),
                token := if l.SubPut? then w.token + {l.t} else if l.WaitTake? then w.token - {l.t} else w.token,
                got := if l.SubPut? then w.got + {l.t} else w.got))
  }

  function Step(w: World, l: Label): Option<World>
  {
    match l
    case Register | RunBegin | HealthSubscribe | CtxCancel | HealthUnsubscribe | RunEnd => RunLabelStep(w, l)
    case Update(_, _) | Store(_) | ReadFlags(_) | TellNext(_) => UpdateStep(w, l)
    case HSpawn(_, _) | HLock(_) | HSend(_) | HInit => HealthStep(w, l)
    case CTake | CExit | CLock | CEval | CTell => ConsumerStep(w, l)
    case _ => WaitStep(w, l)
  }

  // ---------------------------------------------------------------------------------------------
  // The mutex and the phases

  predicate Holds(x: Thread) {
    x.UpLocked? || x.UpStored? || (x.Waiter? && (x.at.SubLocked? || x.at.SubMiss?))
  }

  ghost predicate LockInv(w: World)
  {
    && (w.mu.Held? ==> w.mu.t in w.thr && Holds(w.thr[w.mu.t]))
    && (forall t :: t in w.thr && Holds(w.thr[t]) ==> w.mu == Held(t))
    && (w.mu.HeldByConsumer? <==> w.consumer.CLocked?)
    && (w.consumer.CLocked? ==> w.state == Running)
  }

  ghost predicate PhaseInv(w: World)
  {
    && (forall t :: t in w.thr && w.thr[t] == HUpdate(true) ==> HealthRuns(w.phase))
    && (HealthRuns(w.phase) ==> w.hc)
    && (!w.consumer.COff? ==> HealthRuns(w.phase))
    && (w.phase.Live? ==> w.h in w.hsubs && (w.ctxLive ==> !w.consumer.COff?))
  }

  lemma LockRun(w: World, l: Label)
    requires LockInv(w) && PhaseInv(w) && RunLabelStep(w, l).Some?
    ensures LockInv(RunLabelStep(w, l).value)
  {
  }

  lemma LockTell(w: World, l: Label)
    requires LockInv(w) && l.TellNext? && UpdateStep(w, l).Some?
    ensures LockInv(UpdateStep(w, l).value)
  {
    TellMoves(w, l);
  }

  /** A step of a notification moves a thread that does not hold the mutex. */
  lemma TellMoves(w: World, l: Label)
    requires l.TellNext? && UpdateStep(w, l).Some?
    ensures var w' := UpdateStep(w, l).value;
      && w'.mu == w.mu && w'.consumer == w.consumer && w'.state == w.state
      && l.t in w.thr && !Holds(w.thr[l.t]) && (l.t in w'.thr ==> !Holds(w'.thr[l.t]))
      && forall t :: t != l.t ==> (t in w'.thr <==> t in w.thr) && (t in w.thr ==> w'.thr[t] == w.thr[t])
  {
  }

  lemma LockUpdate(w: World, l: Label)
    requires LockInv(w) && PhaseInv(w) && UpdateStep(w, l).Some?
    ensures LockInv(UpdateStep(w, l).value)
  {
    if l.TellNext? {
      LockTell(w, l);
    }
  }

  lemma LockHealth(w: World, l: Label)
    requires LockInv(w) && PhaseInv(w) && HealthStep(w, l).Some?
    ensures LockInv(HealthStep(w, l).value)
  {
  }

  lemma LockConsumer(w: World, l: Label)
    requires LockInv(w) && PhaseInv(w) && ConsumerStep(w, l).Some?
    ensures LockInv(ConsumerStep(w, l).value)
  {
  }

  lemma LockSubscribe(w: World, l: Label)
    requires LockInv(w) && (l.SubLock? || l.SubCheck? || l.SubAppend?) && WaitStep(w, l).Some?
    ensures LockInv(WaitStep(w, l).value)
  {
  }

  lemma LockWait(w: World, l: Label)
    requires LockInv(w) && PhaseInv(w) && WaitStep(w, l).Some?
    ensures LockInv(WaitStep(w, l).value)
  {
    if l.SubLock? || l.SubCheck? || l.SubAppend? {
      LockSubscribe(w, l);
    } else if !l.WaitBegin? {
      LockOther(w, l);
    }
  }

  /** The steps of a waiter that neither take nor give back the mutex. */
  lemma LockOther(w: World, l: Label)
    requires LockInv(w) && WaitStep(w, l).Some? && !l.SubLock? && !l.SubCheck? && !l.SubAppend? && !l.WaitBegin?
    ensures LockInv(WaitStep(w, l).value)
  {
    var w' := WaitStep(w, l).value;
    assert Holds(w'.thr[l.t]) <==> Holds(w.thr[l.t]);
  }

  lemma LockStep(w: World, l: Label)
    requires LockInv(w) && PhaseInv(w) && Step(w, l).Some?
    ensures LockInv(Step(w, l).value)
  {
    match l
    case Register | RunBegin | HealthSubscribe | CtxCancel | HealthUnsubscribe | RunEnd => LockRun(w, l);
    case Update(_, _) | Store(_) | ReadFlags(_) | TellNext(_) => LockUpdate(w, l);
    case HSpawn(_, _) | HLock(_) | HSend(_) | HInit => LockHealth(w, l);
    case CTake | CExit | CLock | CEval | CTell => LockConsumer(w, l);
    case _ => LockWait(w, l);
  }

  lemma PhaseRun(w: World, l: Label)
    requires PhaseInv(w) && RunLabelStep(w, l).Some?
    ensures PhaseInv(RunLabelStep(w, l).value)
  {
    if l.HealthSubscribe? {
      assert (w.hsubs + [w.h])[|w.hsubs|] == w.h;
    }
  }

  lemma PhaseUpdate(w: World, l: Label)
    requires PhaseInv(w) && UpdateStep(w, l).Some?
    ensures PhaseInv(UpdateStep(w, l).value)
  {
  }

  lemma PhaseHealth(w: World, l: Label)
    requires PhaseInv(w) && HealthStep(w, l).Some?
    ensures PhaseInv(HealthStep(w, l).value)
  {
  }

  lemma PhaseConsumer(w: World, l: Label)
    requires PhaseInv(w) && ConsumerStep(w, l).Some?
    ensures PhaseInv(ConsumerStep(w, l).value)
  {
  }

  lemma PhaseWait(w: World, l: Label)
    requires PhaseInv(w) && WaitStep(w, l).Some?
    ensures PhaseInv(WaitStep(w, l).value)
  {
  }

  lemma PhaseStep(w: World, l: Label)
    requires PhaseInv(w) && Step(w, l).Some?
    ensures PhaseInv(Step(w, l).value)
  {
    match l
    case Register | RunBegin | HealthSubscribe | CtxCancel | HealthUnsubscribe | RunEnd => PhaseRun(w, l);
    case Update(_, _) | Store(_) | ReadFlags(_) | TellNext(_) => PhaseUpdate(w, l);
    case HSpawn(_, _) | HLock(_) | HSend(_) | HInit => PhaseHealth(w, l);
    case CTake | CExit | CLock | CEval | CTell => PhaseConsumer(w, l);
    case _ => PhaseWait(w, l);
  }

  // ---------------------------------------------------------------------------------------------
  // No lost wake-up

  /** The notification will still send to ch for ev. */
  predicate PostCommits(p: Post, ev: Ev, ch: Tid)
  {
    match p
    case Tell(evs) => ev in evs
    case Sending(e, chs, evs) => (e == ev && ch in chs) || ev in evs
  }

  /** The thread will still send to ch for ev, or read the flags and then decide. */
  predicate Commits(x: Thread, ev: Ev, ch: Tid) {
    x.UpStored? || (x.UpPost? && PostCommits(x.post, ev, ch))
  }

  ghost predicate Committed(w: World, ev: Ev, ch: Tid)
  {
    || (exists t :: t in w.thr && Commits(w.thr[t], ev, ch))
    || (w.consumer.CPost? && PostCommits(w.consumer.post, ev, ch))
  }

  ghost predicate ChangeInFlight(w: World)
  {
    exists t :: t in w.thr && w.thr[t].HSending? && w.h in w.thr[t].chs
  }

  /** A health change of the current run is being sent, is queued, or is dequeued and not evaluated yet. */
  ghost predicate HealthPending(w: World)
  {
    w.phase.Live? && w.state.Running? && (ChangeInFlight(w) || w.queue > 0 || w.consumer.CGot? || w.consumer.CLocked?)
  }

  /** Up by health is only watched while the run's ctx is live, from Starting to the end of the health subscription. */
  predicate Covered(w: World, ev: Ev)
  {
    ev.UpEv? && w.state.Running? && w.hc ==> (w.phase.PreSub? || w.phase.Live?) && w.ctxLive
  }

  ghost predicate Due(w: World, ev: Ev, ch: Tid)
  {
    Committed(w, ev, ch) || (ev.UpEv? && HealthPending(w))
  }

  ghost predicate Served(w: World, ev: Ev, ch: Tid)
  {
    ch in Of(w.subs, ev) && ch !in w.got && In(w, ev) && Covered(w, ev) ==> Due(w, ev, ch)
  }

  ghost predicate NoLost(w: World)
  {
    forall ev, ch :: Served(w, ev, ch)
  }

  /** A waiter that found the service not in its state, and still holds the mutex. */
  predicate Missed(w: World, t: Tid) {
    t in w.thr && w.thr[t].Waiter? && w.thr[t].at.SubMiss? && w.thr[t].at.i < |w.thr[t].evs|
  }

  /** A waiter that has missed its event is about to hear of it. */
  ghost predicate MissServed(w: World, t: Tid)
  {
    Missed(w, t) ==>
      var ev := w.thr[t].evs[w.thr[t].at.i];
      In(w, ev) && Covered(w, ev) ==> ev.UpEv? && HealthPending(w)
  }

  ghost predicate MissInv(w: World)
  {
    forall t :: MissServed(w, t)
  }

  ghost predicate Inv(w: World)
  {
    LockInv(w) && PhaseInv(w) && NoLost(w) && MissInv(w)
  }

  // --- the steps, one group at a time

  lemma RunServed(w: World, l: Label, ev: Ev, ch: Tid)
    requires Inv(w) && RunLabelStep(w, l).Some?
    ensures Served(RunLabelStep(w, l).value, ev, ch)
  {
    assert Served(w, ev, ch);
  }

  lemma RunMiss(w: World, l: Label)
    requires Inv(w) && RunLabelStep(w, l).Some?
    ensures MissInv(RunLabelStep(w, l).value)
  {
    forall t ensures MissServed(RunLabelStep(w, l).value, t) {
      assert MissServed(w, t);
    }
  }

  lemma PostKeeps(w: World, p: Post, ev: Ev, ch: Tid)
    requires PostStep(w, p).Some? && PostCommits(p, ev, ch) && ch in Of(w.subs, ev)
    ensures var r := PostStep(w, p).value; PostCommits(r.1, ev, ch) || ch in r.0.got
    ensures PostStep(w, p).value.0 == w || exists c :: PostStep(w, p).value.0 == Put(w, c)
  {
  }

  /** A commitment of another thread survives a step of t. */
  lemma OthersCommit(w: World, w': World, t: Tid, ev: Ev, ch: Tid)
    requires Committed(w, ev, ch) && w'.consumer == w.consumer
    requires forall u :: u in w.thr && u != t ==> u in w'.thr && w'.thr[u] == w.thr[u]
    requires t in w.thr && Commits(w.thr[t], ev, ch) ==> t in w'.thr && Commits(w'.thr[t], ev, ch)
    ensures Committed(w', ev, ch)
  {
    if u :| u in w.thr && Commits(w.thr[u], ev, ch) {
      assert u in w'.thr && Commits(w'.thr[u], ev, ch);
    }
  }

  lemma OthersInFlight(w: World, w': World, t: Tid)
    requires ChangeInFlight(w) && w'.h == w.h
    requires forall u :: u in w.thr && u != t ==> u in w'.thr && w'.thr[u] == w.thr[u]
    requires t in w.thr && w.thr[t].HSending? && w.h in w.thr[t].chs ==>
      t in w'.thr && w'.thr[t].HSending? && w.h in w'.thr[t].chs
    ensures ChangeInFlight(w')
  {
    var u :| u in w.thr && w.thr[u].HSending? && w.h in w.thr[u].chs;
    assert u in w'.thr && w'.thr[u].HSending?;
  }

  lemma StoreServed(w: World, t: Tid, ev: Ev, ch: Tid)
    requires Inv(w) && UpdateStep(w, Store(t)).Some?
    ensures Served(UpdateStep(w, Store(t)).value, ev, ch)
  {
    assert Commits(UpdateStep(w, Store(t)).value.thr[t], ev, ch);
  }

  lemma FlagsServed(w: World, t: Tid, ev: Ev, ch: Tid)
    requires Inv(w) && UpdateStep(w, ReadFlags(t)).Some?
    ensures Served(UpdateStep(w, ReadFlags(t)).value, ev, ch)
  {
    var w' := UpdateStep(w, ReadFlags(t)).value;
    if In(w, ev) {
      assert Commits(w'.thr[t], ev, ch);
    }
  }

  lemma LockedServed(w: World, t: Tid, next: SState, ev: Ev, ch: Tid)
    requires Inv(w) && UpdateStep(w, Update(t, next)).Some?
    ensures Served(UpdateStep(w, Update(t, next)).value, ev, ch)
  {
    var w' := UpdateStep(w, Update(t, next)).value;
    assert Served(w, ev, ch);
    if Committed(w, ev, ch) {
      OthersCommit(w, w', t, ev, ch);
    }
    if ChangeInFlight(w) {
      OthersInFlight(w, w', t);
    }
  }

  /** What notifyEvent does to the commitments of a thread. */
  lemma TellCommits(w: World, t: Tid, ev: Ev, ch: Tid)
    requires UpdateStep(w, TellNext(t)).Some? && Committed(w, ev, ch) && ch in Of(w.subs, ev)
    ensures var w' := UpdateStep(w, TellNext(t)).value; Committed(w', ev, ch) || ch in w'.got
  {
    var w' := UpdateStep(w, TellNext(t)).value;
    if w.thr[t].post != Tell([]) && PostCommits(w.thr[t].post, ev, ch) {
      PostKeeps(w, w.thr[t].post, ev, ch);
      if ch !in w'.got {
        assert Commits(w'.thr[t], ev, ch);
      }
    } else {
      OthersCommit(w, w', t, ev, ch);
    }
  }

  lemma TellFrame(w: World, t: Tid)
    requires UpdateStep(w, TellNext(t)).Some?
    ensures var w' := UpdateStep(w, TellNext(t)).value;
      && w'.subs == w.subs && w.got <= w'.got && w'.state == w.state && w'.health == w.health && w'.hc == w.hc
      && w'.phase == w.phase && w'.ctxLive == w.ctxLive && w'.h == w.h && w'.queue == w.queue && w'.consumer == w.consumer
      && (ChangeInFlight(w) ==> ChangeInFlight(w'))
  {
    if ChangeInFlight(w) {
      OthersInFlight(w, UpdateStep(w, TellNext(t)).value, t);
    }
  }

  lemma TellServed(w: World, t: Tid, ev: Ev, ch: Tid)
    requires Inv(w) && UpdateStep(w, TellNext(t)).Some?
    ensures Served(UpdateStep(w, TellNext(t)).value, ev, ch)
  {
    assert Served(w, ev, ch);
    TellFrame(w, t);
    if ch in Of(w.subs, ev) && Committed(w, ev, ch) {
      TellCommits(w, t, ev, ch);
    }
  }

  /** A health update can make Up true only by sending the change to the current health channel. */
  lemma HLockServed(w: World, t: Tid, ev: Ev, ch: Tid)
    requires Inv(w) && HealthStep(w, HLock(t)).Some?
    ensures Served(HealthStep(w, HLock(t)).value, ev, ch)
  {
    var w' := HealthStep(w, HLock(t)).value;
    assert Served(w, ev, ch);
    if !In(w, ev) && In(w', ev) && Covered(w, ev) {
      assert w.thr[t] == HUpdate(true) && w'.thr[t] == HSending(w.hsubs);
      assert HealthPending(w');
    } else {
      if Committed(w, ev, ch) {
        OthersCommit(w, w', t, ev, ch);
      }
      if HealthPending(w) {
        HealthPendingKept(w, HLock(t));
      }
    }
  }

  lemma HealthServed(w: World, l: Label, ev: Ev, ch: Tid)
    requires Inv(w) && !l.HLock? && HealthStep(w, l).Some?
    ensures Served(HealthStep(w, l).value, ev, ch)
  {
    var w' := HealthStep(w, l).value;
    assert Served(w, ev, ch);
    assert In(w', ev) ==> In(w, ev);
    if Committed(w, ev, ch) {
      HealthCommits(w, l, ev, ch);
    }
    if HealthPending(w) {
      HealthPendingKept(w, l);
    }
  }

  lemma HealthCommits(w: World, l: Label, ev: Ev, ch: Tid)
    requires HealthStep(w, l).Some? && Committed(w, ev, ch)
    ensures Committed(HealthStep(w, l).value, ev, ch)
  {
    var w' := HealthStep(w, l).value;
    if l.HInit? {
      assert w'.thr == w.thr && w'.consumer == w.consumer;
    } else {
      OthersCommit(w, w', l.t, ev, ch);
    }
  }

  lemma HealthPendingKept(w: World, l: Label)
    requires PhaseInv(w) && HealthPending(w) && HealthStep(w, l).Some?
    ensures HealthPending(HealthStep(w, l).value)
  {
    var w' := HealthStep(w, l).value;
    if ChangeInFlight(w) {
      if l.HInit? {
        assert ChangeInFlight(w');
      } else if l.HSend? && w.thr[l.t].chs != [] && w.thr[l.t].chs[0] == w.h {
        assert w'.queue > 0;
      } else {
        OthersInFlight(w, w', l.t);
      }
    }
  }

  lemma ConsumerServed(w: World, l: Label, ev: Ev, ch: Tid)
    requires Inv(w) && !l.CTell? && ConsumerStep(w, l).Some?
    ensures Served(ConsumerStep(w, l).value, ev, ch)
  {
    var w' := ConsumerStep(w, l).value;
    assert Served(w, ev, ch);
    assert w'.thr == w.thr;
    if Committed(w, ev, ch) {
      assert Committed(w', ev, ch);
    }
    if ChangeInFlight(w) {
      assert ChangeInFlight(w');
    }
  }

  lemma ConsumerTellCommits(w: World, ev: Ev, ch: Tid)
    requires ConsumerStep(w, CTell).Some? && Committed(w, ev, ch) && ch in Of(w.subs, ev)
    requires ch !in ConsumerStep(w, CTell).value.got
    ensures Committed(ConsumerStep(w, CTell).value, ev, ch)
  {
    var w' := ConsumerStep(w, CTell).value;
    if t :| t in w.thr && Commits(w.thr[t], ev, ch) {
      ConsumerFrame(w, CTell);
      assert Commits(w'.thr[t], ev, ch);
    } else if w.consumer.post != Tell([]) {
      PostKeeps(w, w.consumer.post, ev, ch);
    }
  }

  lemma ConsumerTellFrame(w: World)
    requires ConsumerStep(w, CTell).Some?
    ensures var w' := ConsumerStep(w, CTell).value;
      w'.subs == w.subs && w.got <= w'.got && w'.queue == w.queue && w.consumer.CPost? && (w'.consumer.CPost? || w'.consumer.CIdle?)
  {
  }

  lemma ConsumerTellServed(w: World, ev: Ev, ch: Tid)
    requires Inv(w) && ConsumerStep(w, CTell).Some?
    ensures Served(ConsumerStep(w, CTell).value, ev, ch)
  {
    var w' := ConsumerStep(w, CTell).value;
    ConsumerFrame(w, CTell);
    ConsumerTellFrame(w);
    assert Served(w, ev, ch);
    if ch in Of(w.subs, ev) && ch !in w'.got && Committed(w, ev, ch) {
      ConsumerTellCommits(w, ev, ch);
    }
    if ChangeInFlight(w) {
      assert ChangeInFlight(w');
    }
  }

  // --- the waiters

  lemma WaitFrame(w: World, l: Label)
    requires WaitStep(w, l).Some?
    ensures var w' := WaitStep(w, l).value;
      && w.got <= w'.got && w'.state == w.state && w'.health == w.health && w'.hc == w.hc && w'.phase == w.phase
      && w'.ctxLive == w.ctxLive && w'.h == w.h && w'.queue == w.queue && w'.consumer == w.consumer
      && (l.t in w.thr ==> w.thr[l.t].Waiter?)
      && l.t in w'.thr && w'.thr[l.t].Waiter? && w'.thr == w.thr[l.t := w'.thr[l.t]]
  {
  }

  lemma WaitKeeps(w: World, l: Label, ev: Ev, ch: Tid)
    requires WaitStep(w, l).Some?
    ensures Committed(w, ev, ch) ==> Committed(WaitStep(w, l).value, ev, ch)
    ensures HealthPending(w) ==> HealthPending(WaitStep(w, l).value)
  {
    WaitFrame(w, l);
    if Committed(w, ev, ch) {
      OthersCommit(w, WaitStep(w, l).value, l.t, ev, ch);
    }
    if ChangeInFlight(w) {
      OthersInFlight(w, WaitStep(w, l).value, l.t);
    }
  }

  lemma WaitServed(w: World, l: Label, ev: Ev, ch: Tid)
    requires Inv(w) && WaitStep(w, l).Some?
    ensures Served(WaitStep(w, l).value, ev, ch)
  {
    if l.SubAppend? && ch == l.t && ev == w.thr[ch].evs[w.thr[ch].at.i] {
      AppendServed(w, l);
    } else {
      OldServed(w, l, ev, ch);
    }
  }

  /** The waiter that appends itself has looked at the state while it held the mutex. */
  lemma AppendServed(w: World, l: Label)
    requires MissInv(w) && l.SubAppend? && WaitStep(w, l).Some?
    ensures Served(WaitStep(w, l).value, w.thr[l.t].evs[w.thr[l.t].at.i], l.t)
  {
    var ev := w.thr[l.t].evs[w.thr[l.t].at.i];
    WaitFrame(w, l);
    WaitKeeps(w, l, ev, l.t);
    assert MissServed(w, l.t);
  }

  /** A subscriber that was one before is served as before. */
  lemma OldServed(w: World, l: Label, ev: Ev, ch: Tid)
    requires NoLost(w) && WaitStep(w, l).Some?
    requires !(l.SubAppend? && ch == l.t && ev == w.thr[ch].evs[w.thr[ch].at.i])
    ensures Served(WaitStep(w, l).value, ev, ch)
  {
    var w' := WaitStep(w, l).value;
    WaitFrame(w, l);
    WaitKeeps(w, l, ev, ch);
    if ch in Of(w'.subs, ev) {
      SubscribersShrink(w, l, ev, ch);
    }
    assert Served(w, ev, ch);
    ServedOn(w, w', ev, ch);
  }

  lemma ServedOn(w: World, w': World, ev: Ev, ch: Tid)
    requires Served(w, ev, ch) && w.got <= w'.got && (Due(w, ev, ch) ==> Due(w', ev, ch))
    requires ch in Of(w'.subs, ev) ==> ch in Of(w.subs, ev)
    requires w'.state == w.state && w'.health == w.health && w'.hc == w.hc && w'.phase == w.phase && w'.ctxLive == w.ctxLive
    ensures Served(w', ev, ch)
  {
  }

  lemma SubscribersShrink(w: World, l: Label, ev: Ev, ch: Tid)
    requires WaitStep(w, l).Some? && ch in Of(WaitStep(w, l).value.subs, ev)
    requires !(l.SubAppend? && ch == l.t && ev == w.thr[ch].evs[w.thr[ch].at.i])
    ensures ch in Of(w.subs, ev)
  {
    if l.UnsubOne? {
      SwapDeleteIn(Of(w.subs, ev), l.t);
    }
  }

  lemma UpdateFrame(w: World, l: Label)
    requires LockInv(w) && UpdateStep(w, l).Some?
    ensures var w' := UpdateStep(w, l).value;
      && (l.Store? ==> w.mu == Held(l.t))
      && (!l.Store? ==> w'.state == w.state && w'.phase == w.phase)
      && w'.health == w.health && w'.hc == w.hc && w'.ctxLive == w.ctxLive && w'.h == w.h && w'.queue == w.queue
      && w'.consumer == w.consumer
      && (l.t in w'.thr ==> !w'.thr[l.t].Waiter? && !w'.thr[l.t].HSending?)
      && (l.t in w.thr ==> !w.thr[l.t].Waiter? && !w.thr[l.t].HSending?)
      && (forall u :: u != l.t ==> (u in w.thr <==> u in w'.thr))
      && (forall u :: u != l.t && u in w.thr ==> w.thr[u] == w'.thr[u])
  {
    UpdateThreads(w, l);
  }

  lemma UpdateThreads(w: World, l: Label)
    requires UpdateStep(w, l).Some?
    ensures var w' := UpdateStep(w, l).value;
      && (l.t in w'.thr ==> !w'.thr[l.t].Waiter? && !w'.thr[l.t].HSending?)
      && (l.t in w.thr ==> !w.thr[l.t].Waiter? && !w.thr[l.t].HSending?)
      && (forall u :: u != l.t ==> (u in w.thr <==> u in w'.thr))
      && (forall u :: u != l.t && u in w.thr ==> w.thr[u] == w'.thr[u])
  {
  }

  lemma UpdateMiss(w: World, l: Label)
    requires Inv(w) && UpdateStep(w, l).Some?
    ensures MissInv(UpdateStep(w, l).value)
  {
    var w' := UpdateStep(w, l).value;
    UpdateFrame(w, l);
    if ChangeInFlight(w) {
      OthersInFlight(w, w', l.t);
    }
    forall t | Missed(w', t) ensures MissServed(w', t) {
      assert t != l.t && MissServed(w, t) && w.mu == Held(t);
    }
  }

  lemma HealthMiss(w: World, l: Label)
    requires Inv(w) && HealthStep(w, l).Some?
    ensures MissInv(HealthStep(w, l).value)
  {
    var w' := HealthStep(w, l).value;
    forall t | Missed(w', t) ensures MissServed(w', t) {
      assert MissServed(w, t) && w'.thr[t] == w.thr[t];
      HealthMissOne(w, l, w.thr[t].evs[w.thr[t].at.i]);
    }
  }

  lemma HealthMissOne(w: World, l: Label, ev: Ev)
    requires PhaseInv(w) && HealthStep(w, l).Some?
    requires In(w, ev) && Covered(w, ev) ==> ev.UpEv? && HealthPending(w)
    ensures var w' := HealthStep(w, l).value; In(w', ev) && Covered(w', ev) ==> ev.UpEv? && HealthPending(w')
  {
    var w' := HealthStep(w, l).value;
    if HealthPending(w) {
      HealthPendingKept(w, l);
    }
    if l.HLock? && In(w', ev) && !In(w, ev) && Covered(w, ev) {
      assert w.thr[l.t] == HUpdate(true) && w'.thr[l.t] == HSending(w.hsubs);
    }
  }

  lemma ConsumerMiss(w: World, l: Label)
    requires Inv(w) && ConsumerStep(w, l).Some?
    ensures MissInv(ConsumerStep(w, l).value)
  {
    forall t ensures MissServed(ConsumerStep(w, l).value, t) {
      ConsumerMissOne(w, l, t);
    }
  }

  lemma ConsumerFrame(w: World, l: Label)
    requires ConsumerStep(w, l).Some?
    ensures var w' := ConsumerStep(w, l).value;
      && w'.thr == w.thr && w'.state == w.state && w'.health == w.health && w'.hc == w.hc && w'.phase == w.phase
      && w'.ctxLive == w.ctxLive && w'.h == w.h
  {
    if l.CTell? {
      ConsumerTellMoves(w);
    }
  }

  lemma PostMoves(w: World, p: Post)
    requires PostStep(w, p).Some?
    ensures var v := PostStep(w, p).value.0;
      && v.thr == w.thr && v.state == w.state && v.health == w.health && v.hc == w.hc && v.phase == w.phase
      && v.ctxLive == w.ctxLive && v.h == w.h
  {
  }

  lemma ConsumerTellMoves(w: World)
    requires ConsumerStep(w, CTell).Some?
    ensures var w' := ConsumerStep(w, CTell).value;
      && w'.thr == w.thr && w'.state == w.state && w'.health == w.health && w'.hc == w.hc && w'.phase == w.phase
      && w'.ctxLive == w.ctxLive && w'.h == w.h
  {
    if w.consumer.post != Tell([]) {
      PostMoves(w, w.consumer.post);
    }
  }

  /** While a waiter holds the mutex, the consumer does not lose a health change. */
  lemma PendingWhileHeld(w: World, l: Label)
    requires LockInv(w) && PhaseInv(w) && ConsumerStep(w, l).Some? && w.mu.Held? && HealthPending(w)
    ensures HealthPending(ConsumerStep(w, l).value)
  {
    var w' := ConsumerStep(w, l).value;
    ConsumerFrame(w, l);
    if ChangeInFlight(w) {
      assert ChangeInFlight(w');
    }
  }

  lemma ConsumerMissOne(w: World, l: Label, t: Tid)
    requires Inv(w) && ConsumerStep(w, l).Some?
    ensures MissServed(ConsumerStep(w, l).value, t)
  {
    ConsumerFrame(w, l);
    assert MissServed(w, t);
    if Missed(w, t) && HealthPending(w) {
      assert w.mu == Held(t);
      PendingWhileHeld(w, l);
    }
  }

  lemma WaitMiss(w: World, l: Label)
    requires Inv(w) && WaitStep(w, l).Some?
    ensures MissInv(WaitStep(w, l).value)
  {
    forall t ensures MissServed(WaitStep(w, l).value, t) {
      WaitMissOne(w, l, t);
    }
  }

  lemma WaitMissOne(w: World, l: Label, t: Tid)
    requires Inv(w) && WaitStep(w, l).Some?
    ensures MissServed(WaitStep(w, l).value, t)
  {
    var w' := WaitStep(w, l).value;
    WaitFrame(w, l);
    assert MissServed(w, t);
    if t == l.t {
      MissesNow(w, l);
    } else {
      WaitKeeps(w, l, UpEv, 0);
    }
  }

  /** A waiter comes to miss its event only by a look at a state that is not the one it waits for. */
  lemma MissesNow(w: World, l: Label)
    requires WaitStep(w, l).Some?
    ensures var w' := WaitStep(w, l).value;
      Missed(w', l.t) ==> !In(w', w'.thr[l.t].evs[w'.thr[l.t].at.i])
  {
  }

  lemma ServedStep(w: World, l: Label, ev: Ev, ch: Tid)
    requires Inv(w) && Step(w, l).Some?
    ensures Served(Step(w, l).value, ev, ch)
  {
    match l
    case Register | RunBegin | HealthSubscribe | CtxCancel | HealthUnsubscribe | RunEnd => RunServed(w, l, ev, ch);
    case Update(t, next) => LockedServed(w, t, next, ev, ch);
    case Store(t) => StoreServed(w, t, ev, ch);
    case ReadFlags(t) => FlagsServed(w, t, ev, ch);
    case TellNext(t) => TellServed(w, t, ev, ch);
    case HLock(t) => HLockServed(w, t, ev, ch);
    case HSpawn(_, _) | HSend(_) | HInit => HealthServed(w, l, ev, ch);
    case CTell => ConsumerTellServed(w, ev, ch);
    case CTake | CExit | CLock | CEval => ConsumerServed(w, l, ev, ch);
    case _ => WaitServed(w, l, ev, ch);
  }

  lemma MissStep(w: World, l: Label)
    requires Inv(w) && Step(w, l).Some?
    ensures MissInv(Step(w, l).value)
  {
    match l
    case Register | RunBegin | HealthSubscribe | CtxCancel | HealthUnsubscribe | RunEnd => RunMiss(w, l);
    case Update(_, _) | Store(_) | ReadFlags(_) | TellNext(_) => UpdateMiss(w, l);
    case HSpawn(_, _) | HLock(_) | HSend(_) | HInit => HealthMiss(w, l);
    case CTake | CExit | CLock | CEval | CTell => ConsumerMiss(w, l);
    case _ => WaitMiss(w, l);
  }

  lemma InvStep(w: World, l: Label)
    requires Inv(w) && Step(w, l).Some?
    ensures Inv(Step(w, l).value)
  {
    LockStep(w, l);
    PhaseStep(w, l);
    MissStep(w, l);
    forall ev, ch ensures Served(Step(w, l).value, ev, ch) {
      ServedStep(w, l, ev, ch);
    }
  }

  lemma InvHolds(hc: bool, run: seq<Label>)
    requires Exec(Step, Begin(hc), run).Some?
    ensures Inv(Exec(Step, Begin(hc), run).value)
  {
    assert Inv(Begin(hc));
    forall w, l | Inv(w) && Step(w, l).Some? ensures Inv(Step(w, l).value) {
      InvStep(w, l);
    }
    InvariantHolds(Step, Inv, Begin(hc), run);
  }

  /** The state and the subscriber lists change only under the mutex: held by the thread that changes them, or free to be taken
      by it. */
  lemma ChangesUnderMutex(hc: bool, run: seq<Label>, l: Label)
    requires Exec(Step, Begin(hc), run).Some? && Step(Exec(Step, Begin(hc), run).value, l).Some?
    ensures var w := Exec(Step, Begin(hc), run).value;
      var w' := Step(w, l).value;
      && (w'.state != w.state ==> l.Store? && w.mu == Held(l.t))
      && (w'.subs != w.subs ==> (l.SubAppend? && w.mu == Held(l.t)) || (l.UnsubOne? && w.mu.Nobody?))
  {
    InvHolds(hc, run);
    StepUnderMutex(Exec(Step, Begin(hc), run).value, l);
  }

  lemma StepUnderMutex(w: World, l: Label)
    requires LockInv(w) && Step(w, l).Some?
    ensures var w' := Step(w, l).value;
      && (w'.state != w.state ==> l.Store? && w.mu == Held(l.t))
      && (w'.subs != w.subs ==> (l.SubAppend? && w.mu == Held(l.t)) || (l.UnsubOne? && w.mu.Nobody?))
      && w'.hc == w.hc
  {
    match l
    case Update(_, _) | Store(_) | ReadFlags(_) | TellNext(_) => UpdatesState(w, l);
    case WaitBegin(_, _) | WaitLook(_, _) | SubLock(_) | SubCheck(_) | SubAppend(_) | SubPut(_)
       | WaitTake(_) | WaitCancel(_) | UnsubOne(_) => WaitsChangeLists(w, l);
    case _ => LeavesAlone(w, l);
  }

  lemma UpdatesState(w: World, l: Label)
    requires LockInv(w) && UpdateStep(w, l).Some?
    ensures UpdateStep(w, l).value.subs == w.subs && UpdateStep(w, l).value.hc == w.hc
    ensures UpdateStep(w, l).value.state != w.state ==> l.Store? && w.mu == Held(l.t)
  {
  }

  lemma WaitsChangeLists(w: World, l: Label)
    requires LockInv(w) && WaitStep(w, l).Some?
    ensures WaitStep(w, l).value.state == w.state && WaitStep(w, l).value.hc == w.hc
    ensures WaitStep(w, l).value.subs != w.subs ==> (l.SubAppend? && w.mu == Held(l.t)) || (l.UnsubOne? && w.mu.Nobody?)
  {
    if !l.WaitBegin? {
      var x := w.thr[l.t];
      assert WaitStep(w, l).value.subs == WaitSubs(x.evs, x.at, l, w.subs);
      if WaitSubs(x.evs, x.at, l, w.subs) != w.subs {
        ListsChange(w, x.evs, x.at, l);
      }
    }
  }

  /** Which steps of a waiter at pc change a list, and how they stand to the mutex. */
  lemma ListsChange(w: World, evs: seq<Ev>, pc: WaitPc, l: Label)
    requires WaitLabel(l) && WaitNext(w, evs, pc, l).Some? && WaitSubs(evs, pc, l, w.subs) != w.subs
    ensures (l.SubAppend? && pc.SubMiss?) || (l.UnsubOne? && w.mu.Nobody?)
  {
  }

  lemma LeavesAlone(w: World, l: Label)
    requires RunLabelStep(w, l).Some? || HealthStep(w, l).Some? || ConsumerStep(w, l).Some?
    ensures RunLabelStep(w, l).Some? ==> SameLists(w, RunLabelStep(w, l).value)
    ensures HealthStep(w, l).Some? ==> SameLists(w, HealthStep(w, l).value)
    ensures ConsumerStep(w, l).Some? ==> SameLists(w, ConsumerStep(w, l).value)
  {
    if RunLabelStep(w, l).Some? {
      RunLeavesAlone(w, l);
    }
    if ConsumerStep(w, l).Some? {
      ConsumerLeavesAlone(w, l);
    }
  }

  predicate SameLists(w: World, w': World) {
    w'.subs == w.subs && w'.state == w.state && w'.hc == w.hc
  }

  lemma RunLeavesAlone(w: World, l: Label)
    requires RunLabelStep(w, l).Some?
    ensures SameLists(w, RunLabelStep(w, l).value)
  {
  }

  lemma ConsumerLeavesAlone(w: World, l: Label)
    requires ConsumerStep(w, l).Some?
    ensures SameLists(w, ConsumerStep(w, l).value)
  {
  }

  /** The channel of the run holds two changes: only a third one that finds it full is dropped. */
  lemma DropsOnlyWhenFull(w: World, t: Tid)
    requires t in w.thr && w.thr[t].HSending? && w.thr[t].chs != [] && w.queue <= 2
    ensures var w' := Step(w, HSend(t));
      && w'.Some? && w'.value.queue <= 2
      && (w'.value.queue == w.queue + 1 <==> w.thr[t].chs[0] == w.h && w.queue <= 1)
      && (w'.value.queue == w.queue <==> w.thr[t].chs[0] != w.h || w.queue == 2)
      && t in w'.value.thr && w'.value.thr[t] == HSending(w.thr[t].chs[1..])
  {
  }

  /** No lost wake-up, in every reachable state of every service: if the service is up, down or finished, ch is
      subscribed to that event and has never had a token, then some thread is committed to notifying ch for ev -- or,
      for Up, a health change is in flight that will be evaluated against the current health. */
  lemma NoLostWakeup(hc: bool, run: seq<Label>, ev: Ev, ch: Tid)
    requires Exec(Step, Begin(hc), run).Some?
    requires var w := Exec(Step, Begin(hc), run).value;
      && ev in w.subs && ch in w.subs[ev] && ch !in w.got
      && match ev
         case UpEv =>
           w.state == Skipped
           || (w.state == Running && (w.hc ==> w.health == Some(true) && (w.phase.PreSub? || w.phase.Live?) && w.ctxLive))
         case DownEv => w.state == Finished || w.state == Failed || w.state == Skipped
         case FinishedEv => w.state == Finished
    ensures var w := Exec(Step, Begin(hc), run).value;
      Committed(w, ev, ch) || (ev.UpEv? && HealthPending(w) && !w.consumer.COff?)
  {
    InvHolds(hc, run);
    assert Served(Exec(Step, Begin(hc), run).value, ev, ch);
  }
}
