/** What a return of Wait means, over every run of the notification protocol. */
module WaitSound {
  import opened Common
  import opened Restart
  import opened Subscriptions
  import opened Wakeups

  /** How many of its events a waiter has subscribed to and not yet unsubscribed from. */
  function Extent(evs: seq<Ev>, pc: WaitPc): nat
  {
    match pc
    case Sub(i) => i
    case SubLocked(i) => i
    case SubMiss(i) => i
    case SubHit(i) => i
    case Selecting => |evs|
    case Unsub(j, _) => j
    case _ => 0
  }

  predicate IsWaiter(w: World, t: Tid) {
    t in w.thr && w.thr[t].Waiter?
  }

  predicate Interested(w: World, t: Tid, ev: Ev) {
    IsWaiter(w, t) && ev in w.thr[t].evs
  }

  /** The waiter is one that may still be in the list of ev. */
  predicate Enlisted(w: World, t: Tid, ev: Ev) {
    IsWaiter(w, t) &&
    var x := w.thr[t];
    Extent(x.evs, x.at) <= |x.evs| && ev in x.evs[..Extent(x.evs, x.at)]
  }

  /** Every event of the notification has happened, and everyone it still tells asked for it. */
  ghost predicate Honest(w: World, p: Post, seen: set<Ev>)
  {
    && (forall ev :: ev in p.evs ==> ev in seen)
    && (p.Sending? ==> p.ev in seen && forall c :: c in p.chs ==> Interested(w, c, p.ev))
  }

  predicate Satisfied(w: World, t: Tid, seen: set<Ev>) {
    IsWaiter(w, t) && exists ev :: ev in w.thr[t].evs && ev in seen
  }

  /** A waiter for evs at pc; got tells whether it ever had a token. */
  predicate PcGood(evs: seq<Ev>, pc: WaitPc, seen: set<Ev>, got: bool, registered: bool)
  {
    && Extent(evs, pc) <= |evs|
    && (pc.SubLocked? || pc.SubMiss? || pc.SubHit? ==> pc.i < |evs|)
    && (pc.SubHit? ==> evs[pc.i] in seen)
    && ((pc.Unsub? || pc.Returned?) && pc.woken ==> got)
    && (!pc.Lookup? && !pc.Polling? && pc != Returned(false) ==> registered)
  }

  predicate PcOk(w: World, t: Tid, seen: set<Ev>)
    requires IsWaiter(w, t)
  {
    PcGood(w.thr[t].evs, w.thr[t].at, seen, t in w.got, w.registered)
  }

  ghost predicate PostsHonest(w: World, seen: set<Ev>)
  {
    && (forall t :: t in w.thr && w.thr[t].UpPost? ==> Honest(w, w.thr[t].post, seen))
    && (w.consumer.CPost? ==> Honest(w, w.consumer.post, seen))
  }

  ghost predicate ListsOk(w: World)
  {
    forall ev, t :: t in Of(w.subs, ev) ==> Enlisted(w, t, ev)
  }

  ghost predicate WaitersOk(w: World, seen: set<Ev>)
  {
    && (forall t :: IsWaiter(w, t) ==> PcOk(w, t, seen))
    && (forall t :: t in w.got ==> Satisfied(w, t, seen))
    && w.token <= w.got
  }

  ghost predicate WaitInv(w: World, seen: set<Ev>)
  {
    && (forall ev :: In(w, ev) ==> ev in seen)
    && PostsHonest(w, seen) && ListsOk(w) && WaitersOk(w, seen)
  }

  // --- the lists

  lemma ListsWait(w: World, l: Label, seen: set<Ev>)
    requires WaitInv(w, seen) && WaitStep(w, l).Some?
    ensures ListsOk(WaitStep(w, l).value)
  {
    var w' := WaitStep(w, l).value;
    WaitFrame(w, l);
    forall ev, t | t in Of(w'.subs, ev) ensures Enlisted(w', t, ev) {
      if l.SubAppend? && t == l.t && ev == w.thr[t].evs[w.thr[t].at.i] {
        var x := w.thr[t];
        assert x.evs[..x.at.i + 1][x.at.i] == ev;
      } else {
        SubscribersShrink(w, l, ev, t);
        assert Enlisted(w, t, ev);
        if t == l.t {
          ListsOwn(w, l, ev);
        }
      }
    }
  }

  lemma ExtentMoves(w: World, evs: seq<Ev>, pc: WaitPc, l: Label)
    requires WaitLabel(l) && WaitNext(w, evs, pc, l).Some? && Extent(evs, pc) <= |evs|
    requires pc.SubHit? ==> pc.i < |evs|
    ensures var pc' := WaitNext(w, evs, pc, l).value;
      && Extent(evs, pc') <= |evs|
      && (if l.UnsubOne? && pc.j > 0 then Extent(evs, pc') == Extent(evs, pc) - 1 else Extent(evs, pc) <= Extent(evs, pc'))
  {
  }

  lemma OwnShape(w: World, l: Label)
    requires WaitStep(w, l).Some? && IsWaiter(w, l.t)
    ensures WaitLabel(l) && WaitNext(w, w.thr[l.t].evs, w.thr[l.t].at, l).Some?
    ensures var w' := WaitStep(w, l).value;
      var x := w.thr[l.t];
      && w'.thr[l.t] == Waiter(x.evs, WaitNext(w, x.evs, x.at, l).value)
      && w'.subs == WaitSubs(x.evs, x.at, l, w.subs)
      && l.t in w'.thr
  {
  }

  /** The subscriptions a waiter keeps when it drops the last of them. */
  lemma DropLast(evs: seq<Ev>, j: nat, ev: Ev)
    requires 0 < j <= |evs| && ev in evs[..j] && ev != evs[j - 1]
    ensures ev in evs[..j - 1]
  {
    assert evs[..j] == evs[..j - 1] + [evs[j - 1]];
  }

  lemma KeepMore(evs: seq<Ev>, m: nat, n: nat, ev: Ev)
    requires m <= n <= |evs| && ev in evs[..m]
    ensures ev in evs[..n]
  {
    assert evs[..m] <= evs[..n];
  }

  /** A waiter's own step, seen from a list it stays in. */
  lemma ListsOwn(w: World, l: Label, ev: Ev)
    requires WaitStep(w, l).Some? && l.t in Of(WaitStep(w, l).value.subs, ev)
    requires Enlisted(w, l.t, ev)
    requires w.thr[l.t].at.SubHit? ==> w.thr[l.t].at.i < |w.thr[l.t].evs|
    ensures Enlisted(WaitStep(w, l).value, l.t, ev)
  {
    var x := w.thr[l.t];
    OwnShape(w, l);
    ExtentMoves(w, x.evs, x.at, l);
    if l.UnsubOne? && x.at.j > 0 {
      SwapDeleteIn(Of(w.subs, ev), l.t);
      DropLast(x.evs, x.at.j, ev);
    } else {
      KeepMore(x.evs, Extent(x.evs, x.at), Extent(x.evs, WaitNext(w, x.evs, x.at, l).value), ev);
    }
  }

  /** A step that keeps every waiter as it is, or takes subscribers away, keeps the lists in order. */
  lemma ListsSame(w: World, w': World)
    requires ListsOk(w) && w'.subs == w.subs
    requires forall t :: IsWaiter(w, t) ==> IsWaiter(w', t) && w'.thr[t] == w.thr[t]
    ensures ListsOk(w')
  {
    forall ev, t | t in Of(w'.subs, ev) ensures Enlisted(w', t, ev) {
      assert Enlisted(w, t, ev);
    }
  }

  // --- the notifications

  lemma HonestStep(w: World, p: Post, seen: set<Ev>)
    requires Honest(w, p, seen) && ListsOk(w) && PostStep(w, p).Some?
    ensures var r := PostStep(w, p).value;
      && Honest(w, r.1, seen)
      && (forall c :: c in r.0.got && c !in w.got ==> p.Sending? && Interested(w, c, p.ev) && p.ev in seen)
      && (forall c :: c in r.0.token && c !in w.token ==> c in r.0.got)
      && w.got <= r.0.got && r.0 == w.(token := r.0.token, got := r.0.got)
  {
    if p.Tell? {
      forall c | c in Of(w.subs, p.evs[0]) ensures Interested(w, c, p.evs[0]) {
        assert Enlisted(w, c, p.evs[0]);
      }
    }
  }

  lemma HonestSame(w: World, w': World, p: Post, seen: set<Ev>, seen': set<Ev>)
    requires Honest(w, p, seen) && seen <= seen'
    requires forall t :: IsWaiter(w, t) ==> IsWaiter(w', t) && w'.thr[t].evs == w.thr[t].evs
    ensures Honest(w', p, seen')
  {
  }

  lemma PostsSame(w: World, w': World, t: Tid, seen: set<Ev>, seen': set<Ev>)
    requires PostsHonest(w, seen) && seen <= seen' && w'.consumer == w.consumer
    requires forall t :: IsWaiter(w, t) ==> IsWaiter(w', t) && w'.thr[t].evs == w.thr[t].evs
    requires forall u :: u != t && u in w'.thr && w'.thr[u].UpPost? ==> u in w.thr && w'.thr[u] == w.thr[u]
    requires t in w'.thr && w'.thr[t].UpPost? ==> Honest(w', w'.thr[t].post, seen')
    ensures PostsHonest(w', seen')
  {
    forall u | u in w'.thr && w'.thr[u].UpPost? ensures Honest(w', w'.thr[u].post, seen') {
      if u != t {
        HonestSame(w, w', w.thr[u].post, seen, seen');
      }
    }
    if w.consumer.CPost? {
      HonestSame(w, w', w.consumer.post, seen, seen');
    }
  }

  // --- the waiters

  /** Waiters that do not move stay in order when more has been seen. */
  lemma WaitersSame(w: World, w': World, seen: set<Ev>, seen': set<Ev>)
    requires WaitersOk(w, seen) && seen <= seen'
    requires forall t :: IsWaiter(w', t) ==> IsWaiter(w, t)
    requires forall t :: IsWaiter(w, t) ==> IsWaiter(w', t) && w'.thr[t] == w.thr[t]
    requires w.got <= w'.got && w'.token <= w'.got && (w.registered ==> w'.registered)
    requires forall c :: c in w'.got && c !in w.got ==> Satisfied(w', c, seen')
    ensures WaitersOk(w', seen')
  {
    forall t | IsWaiter(w', t) ensures PcOk(w', t, seen') {
      assert PcOk(w, t, seen);
    }
    forall t | t in w'.got ensures Satisfied(w', t, seen') {
      if t in w.got {
        assert Satisfied(w, t, seen);
        var ev :| ev in w.thr[t].evs && ev in seen;
        assert ev in w'.thr[t].evs && ev in seen';
      }
    }
  }

  /** A step of one waiter. */
  lemma WaitersMove(w: World, l: Label, seen: set<Ev>)
    requires WaitInv(w, seen) && WaitStep(w, l).Some?
    ensures WaitersOk(WaitStep(w, l).value, seen)
  {
    var w' := WaitStep(w, l).value;
    WaitFrame(w, l);
    forall t | IsWaiter(w', t) ensures PcOk(w', t, seen) {
      if t == l.t {
        WaiterOwn(w, l, seen);
      } else {
        assert PcOk(w, t, seen);
      }
    }
    forall t | t in w'.got ensures Satisfied(w', t, seen) {
      if t in w.got {
        assert Satisfied(w, t, seen);
        var ev :| ev in w.thr[t].evs && ev in seen;
        assert ev in w'.thr[t].evs;
      } else {
        var x := w.thr[t];
        assert PcOk(w, t, seen) && x.evs[x.at.i] in seen && x.evs[x.at.i] in w'.thr[t].evs;
      }
    }
  }

  lemma PcMoves(w: World, evs: seq<Ev>, pc: WaitPc, l: Label, seen: set<Ev>, got: bool)
    requires WaitLabel(l) && WaitNext(w, evs, pc, l).Some? && PcGood(evs, pc, seen, got, w.registered)
    requires forall ev :: In(w, ev) ==> ev in seen
    requires l.WaitTake? && l.t in w.token ==> got
    ensures PcGood(evs, WaitNext(w, evs, pc, l).value, seen, got || l.SubPut?, w.registered)
  {
  }

  lemma WaiterOwn(w: World, l: Label, seen: set<Ev>)
    requires WaitInv(w, seen) && WaitStep(w, l).Some?
    ensures IsWaiter(WaitStep(w, l).value, l.t) && PcOk(WaitStep(w, l).value, l.t, seen)
  {
    if !l.WaitBegin? {
      assert PcOk(w, l.t, seen);
      PcMoves(w, w.thr[l.t].evs, w.thr[l.t].at, l, seen, l.t in w.got);
    }
  }

  // --- every step

  ghost function Now(w: World): set<Ev> {
    set ev | ev in {UpEv, DownEv, FinishedEv} && In(w, ev)
  }

  lemma SoundWait(w: World, l: Label, seen: set<Ev>)
    requires WaitInv(w, seen) && WaitStep(w, l).Some?
    ensures WaitInv(WaitStep(w, l).value, seen)
  {
    var w' := WaitStep(w, l).value;
    WaitFrame(w, l);
    ListsWait(w, l, seen);
    WaitersMove(w, l, seen);
    PostsSame(w, w', l.t, seen, seen);
  }

  lemma SoundTell(w: World, l: Label, seen: set<Ev>)
    requires LockInv(w) && WaitInv(w, seen) && l.TellNext? && UpdateStep(w, l).Some? && w.thr[l.t].post != Tell([])
    ensures var w' := UpdateStep(w, l).value;
      && l.t in w'.thr && w'.thr[l.t].UpPost? && Honest(w', w'.thr[l.t].post, seen + Now(w'))
      && w.got <= w'.got && (forall c :: c in w'.token && c !in w.token ==> c in w'.got)
      && (forall c :: c in w'.got && c !in w.got ==> Satisfied(w', c, seen + Now(w')))
  {
    var w' := UpdateStep(w, l).value;
    UpdateFrame(w, l);
    HonestStep(w, w.thr[l.t].post, seen);
    HonestSame(w, w', PostStep(w, w.thr[l.t].post).value.1, seen, seen + Now(w'));
  }

  lemma SoundUpdate(w: World, l: Label, seen: set<Ev>)
    requires LockInv(w) && WaitInv(w, seen) && UpdateStep(w, l).Some?
    ensures WaitInv(UpdateStep(w, l).value, seen + Now(UpdateStep(w, l).value))
  {
    var w' := UpdateStep(w, l).value;
    var seen' := seen + Now(w');
    UpdateFrame(w, l);
    ListsSame(w, w');
    if l.TellNext? && w.thr[l.t].post != Tell([]) {
      SoundTell(w, l, seen);
    }
    PostsSame(w, w', l.t, seen, seen');
    WaitersSame(w, w', seen, seen');
  }

  lemma HealthFrame(w: World, l: Label)
    requires HealthStep(w, l).Some?
    ensures var w' := HealthStep(w, l).value;
      && w'.subs == w.subs && w'.got == w.got && w'.token == w.token && w'.consumer == w.consumer
      && w'.registered == w.registered
      && (forall u :: u in w'.thr && (w'.thr[u].Waiter? || w'.thr[u].UpPost?) ==> u in w.thr && w'.thr[u] == w.thr[u])
      && (forall u :: u in w.thr && w.thr[u].Waiter? ==> u in w'.thr && w'.thr[u] == w.thr[u])
  {
    HealthThreads(w, l);
  }

  lemma HealthThreads(w: World, l: Label)
    requires HealthStep(w, l).Some?
    ensures var w' := HealthStep(w, l).value;
      && (forall u :: u in w'.thr && (w'.thr[u].Waiter? || w'.thr[u].UpPost?) ==> u in w.thr && w'.thr[u] == w.thr[u])
      && (forall u :: u in w.thr && w.thr[u].Waiter? ==> u in w'.thr && w'.thr[u] == w.thr[u])
  {
  }

  lemma SoundHealth(w: World, l: Label, seen: set<Ev>)
    requires WaitInv(w, seen) && HealthStep(w, l).Some?
    ensures WaitInv(HealthStep(w, l).value, seen + Now(HealthStep(w, l).value))
  {
    var w' := HealthStep(w, l).value;
    HealthFrame(w, l);
    ListsSame(w, w');
    forall u | u in w'.thr && w'.thr[u].UpPost? ensures Honest(w', w'.thr[u].post, seen + Now(w')) {
      HonestSame(w, w', w.thr[u].post, seen, seen + Now(w'));
    }
    if w.consumer.CPost? {
      HonestSame(w, w', w.consumer.post, seen, seen + Now(w'));
    }
    WaitersSame(w, w', seen, seen + Now(w'));
  }

  lemma SoundRun(w: World, l: Label, seen: set<Ev>)
    requires WaitInv(w, seen) && RunLabelStep(w, l).Some?
    ensures WaitInv(RunLabelStep(w, l).value, seen)
  {
    var w' := RunLabelStep(w, l).value;
    ListsSame(w, w');
    WaitersSame(w, w', seen, seen);
    forall u | u in w'.thr && w'.thr[u].UpPost? ensures Honest(w', w'.thr[u].post, seen) {
      HonestSame(w, w', w.thr[u].post, seen, seen);
    }
    if w.consumer.CPost? {
      HonestSame(w, w', w.consumer.post, seen, seen);
    }
  }

  lemma SoundConsumer(w: World, l: Label, seen: set<Ev>)
    requires WaitInv(w, seen) && ConsumerStep(w, l).Some?
    ensures WaitInv(ConsumerStep(w, l).value, seen)
  {
    var w' := ConsumerStep(w, l).value;
    if l.CTell? && w.consumer.post != Tell([]) {
      HonestStep(w, w.consumer.post, seen);
      HonestSame(w, w', PostStep(w, w.consumer.post).value.1, seen, seen);
    }
    ListsSame(w, w');
    WaitersSame(w, w', seen, seen);
    forall u | u in w'.thr && w'.thr[u].UpPost? ensures Honest(w', w'.thr[u].post, seen) {
      HonestSame(w, w', w.thr[u].post, seen, seen);
    }
  }

  lemma SoundStep(w: World, l: Label, seen: set<Ev>)
    requires LockInv(w) && WaitInv(w, seen) && Step(w, l).Some?
    ensures WaitInv(Step(w, l).value, seen + Now(Step(w, l).value))
  {
    var w' := Step(w, l).value;
    match l
    case Register | RunBegin | HealthSubscribe | CtxCancel | HealthUnsubscribe | RunEnd =>
      SoundRun(w, l, seen); SeenMore(w', seen);
    case Update(_, _) | Store(_) | ReadFlags(_) | TellNext(_) => SoundUpdate(w, l, seen);
    case HSpawn(_, _) | HLock(_) | HSend(_) | HInit => SoundHealth(w, l, seen);
    case CTake | CExit | CLock | CEval | CTell => SoundConsumer(w, l, seen); SeenMore(w', seen);
    case _ => SoundWait(w, l, seen); SeenMore(w', seen);
  }

  lemma SeenMore(w: World, seen: set<Ev>)
    requires WaitInv(w, seen)
    ensures WaitInv(w, seen + Now(w))
  {
    assert Now(w) <= seen;
    assert seen + Now(w) == seen;
  }

  // ---------------------------------------------------------------------------------------------
  // Every return of Wait

  /** The service was in the state of ev after some prefix of the run. */
  ghost predicate WasIn(hc: bool, run: seq<Label>, ev: Ev)
  {
    exists k :: 0 <= k <= |run| && WasInAt(hc, run, ev, k)
  }

  ghost predicate WasInAt(hc: bool, run: seq<Label>, ev: Ev, k: nat)
    requires k <= |run|
  {
    Exec(Step, Begin(hc), run[..k]).Some? && In(Exec(Step, Begin(hc), run[..k]).value, ev)
  }

  ghost function Seen(hc: bool, run: seq<Label>): set<Ev> {
    set ev | ev in {UpEv, DownEv, FinishedEv} && WasIn(hc, run, ev)
  }

  lemma SeenGrows(hc: bool, run: seq<Label>)
    requires run != [] && Exec(Step, Begin(hc), run).Some?
    ensures Seen(hc, run) >= Seen(hc, run[..|run| - 1]) + Now(Exec(Step, Begin(hc), run).value)
  {
    var v := run[..|run| - 1];
    forall ev | ev in Seen(hc, v) ensures ev in Seen(hc, run) {
      var k :| 0 <= k <= |v| && WasInAt(hc, v, ev, k);
      assert v[..k] == run[..k];
      assert WasInAt(hc, run, ev, k);
    }
    forall ev | ev in Now(Exec(Step, Begin(hc), run).value) ensures ev in Seen(hc, run) {
      assert run[..|run|] == run;
      assert WasInAt(hc, run, ev, |run|);
    }
  }

  lemma WaitInvMore(w: World, seen: set<Ev>, seen': set<Ev>)
    requires WaitInv(w, seen) && seen <= seen'
    ensures WaitInv(w, seen')
  {
    forall t | t in w.thr && w.thr[t].UpPost? ensures Honest(w, w.thr[t].post, seen') {
      HonestSame(w, w, w.thr[t].post, seen, seen');
    }
    if w.consumer.CPost? {
      HonestSame(w, w, w.consumer.post, seen, seen');
    }
    WaitersSame(w, w, seen, seen');
  }

  lemma {:induction false} WaitInvHolds(hc: bool, run: seq<Label>)
    requires Exec(Step, Begin(hc), run).Some?
    ensures LockInv(Exec(Step, Begin(hc), run).value) && PhaseInv(Exec(Step, Begin(hc), run).value)
    ensures WaitInv(Exec(Step, Begin(hc), run).value, Seen(hc, run))
  {
    if run != [] {
      var v := run[..|run| - 1];
      WaitInvHolds(hc, v);
      var w := Exec(Step, Begin(hc), v).value;
      LockStep(w, Last(run));
      PhaseStep(w, Last(run));
      SoundStep(w, Last(run), Seen(hc, v));
      SeenGrows(hc, run);
      WaitInvMore(Step(w, Last(run)).value, Seen(hc, v) + Now(Step(w, Last(run)).value), Seen(hc, run));
    }
  }

  /** After k steps of the run the service was up, or down, or finished, as its fields then say: up is skipped, or running and,
      with a health check, known to be healthy; down is any of the terminal states. */
  ghost predicate HappenedAt(hc: bool, run: seq<Label>, ev: Ev, k: nat)
  {
    && k <= |run| && Exec(Step, Begin(hc), run[..k]).Some?
    && var w := Exec(Step, Begin(hc), run[..k]).value;
       match ev
       case UpEv => w.state == Skipped || (w.state == Running && (hc ==> w.health == Some(true)))
       case DownEv => w.state == Finished || w.state == Failed || w.state == Skipped
       case FinishedEv => w.state == Finished
  }

  lemma SameHealthCheck(hc: bool, run: seq<Label>)
    requires Exec(Step, Begin(hc), run).Some?
    ensures Exec(Step, Begin(hc), run).value.hc == hc
  {
    assert Inv(Begin(hc));
    var same := (w: World) => Inv(w) && w.hc == hc;
    forall w, l | same(w) && Step(w, l).Some? ensures same(Step(w, l).value) {
      InvStep(w, l);
      StepUnderMutex(w, l);
    }
    InvariantHolds(Step, same, Begin(hc), run);
  }

  lemma InHappened(hc: bool, run: seq<Label>, ev: Ev) returns (k: nat)
    requires WasIn(hc, run, ev)
    ensures HappenedAt(hc, run, ev, k)
  {
    k :| k <= |run| && WasInAt(hc, run, ev, k);
    SameHealthCheck(hc, run[..k]);
  }

  /** Wait is sound and leaks nothing. When it has returned, its channel is in no subscriber list; when it returned nil,
      the service was registered, and one of its events held at some moment of the run. */
  lemma WaitIsSound(hc: bool, run: seq<Label>, t: Tid)
    requires Exec(Step, Begin(hc), run).Some?
    requires IsWaiter(Exec(Step, Begin(hc), run).value, t) && Exec(Step, Begin(hc), run).value.thr[t].at.Returned?
    ensures forall ev :: t !in Of(Exec(Step, Begin(hc), run).value.subs, ev)
    ensures Exec(Step, Begin(hc), run).value.thr[t].at.woken ==>
      Exec(Step, Begin(hc), run).value.registered
      && exists ev, k :: ev in Exec(Step, Begin(hc), run).value.thr[t].evs && HappenedAt(hc, run, ev, k)
  {
    var w := Exec(Step, Begin(hc), run).value;
    WaitInvHolds(hc, run);
    forall ev ensures t !in Of(w.subs, ev) {
      assert t in Of(w.subs, ev) ==> Enlisted(w, t, ev);
    }
    assert PcOk(w, t, Seen(hc, run));
    if w.thr[t].at.woken {
      assert Satisfied(w, t, Seen(hc, run));
      var ev :| ev in w.thr[t].evs && ev in Seen(hc, run);
      var k := InHappened(hc, run, ev);
    }
  }
}
