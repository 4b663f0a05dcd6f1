/** Publishers and any number of watchers of one event stream, cut at the mutex, the condition variable and the
    unbuffered channel to each WatchFunc. */
module Watch {
  import opened Common
  import opened EventStream

  datatype Pc =
    | Ready                                    // about to lock
    | Asleep                                   // in Cond.Wait, not signalled
    | Woken                                    // signalled, about to get the lock back
    | Sending(event: Event, backlog: nat)      // offering one event to the WatchFunc
    | Ended(overrun: bool)

  /** start is the position Watch captured, born the write position at that moment, given what the WatchFunc received. */
  datatype Watcher = Watcher(actor: string, start: nat, born: nat, pos: nat, pc: Pc, cancelled: bool, given: seq<EventInfo>)

  /** log is the history of all publishes; the code only has the ring. */
  datatype Stream = Stream(ring: Ring, log: seq<Event>, ws: seq<Watcher>)

  datatype Label =
    | Publish(e: Event)
    | Start(opts: WatchOptions, now: int, pos: nat)
    | Lock(w: nat)          // one locked section of watcher w
    | Send(w: nat)          // the WatchFunc of w receives
    | Cancel(w: nat)        // the WatchFunc of w returns
    | Abort(w: nat)         // w sees that its ctx is done while it offers an event

  function Init(slots: seq<Event>, gap: int): Stream {
    Stream(Ring(slots, 0, gap), [], [])
  }

  function Wake(w: Watcher): Watcher {
    if w.pc.Asleep? then w.(pc := Woken) else w
  }

  function WakeAll(ws: seq<Watcher>): (r: seq<Watcher>)
    ensures |r| == |ws| && forall i :: 0 <= i < |ws| ==> r[i] == Wake(ws[i])
  {
    if ws == [] then [] else WakeAll(ws[..|ws| - 1]) + [Wake(Last(ws))]
  }

  /** The filter by actor, where "" lets everything through. */
  predicate Wanted(actor: string, e: Event) {
    actor == "" || e.actor == actor
  }

  function LockStep(r: Ring, w: Watcher): Option<Watcher>
  {
    if !(w.pc.Ready? || w.pc.Woken?) || !r.Valid() || w.pos > r.writePos then None
    else if w.pc.Woken? && w.cancelled then Some(w.(pc := Ended(false)))
    else
      match LookAt(r, w.pos)
      case Caught => Some(w.(pc := Asleep))
      case Overrun => Some(w.(pc := Ended(true)))
      case Item(e, backlog) =>
        Some(w.(pos := w.pos + 1, pc := if Wanted(w.actor, e) then Sending(e, backlog) else Ready))
  }

  function WatcherStep(s: Stream, l: Label): Option<Watcher>
    requires (l.Lock? || l.Send? || l.Cancel? || l.Abort?) && l.w < |s.ws|
  {
    var w := s.ws[l.w];
    match l
    case Lock(_) => LockStep(s.ring, w)
    case Send(_) =>
      if w.pc.Sending? then Some(w.(pc := Ready, given := w.given + [EventInfo(w.pc.event, w.pc.backlog)])) else None
    case Cancel(_) => Some(w.(cancelled := true))
    case Abort(_) => if w.pc.Sending? && w.cancelled then Some(w.(pc := Ended(false))) else None
  }

  /** Publish panics if there are no slots, so it is no step then. */
  function Step(s: Stream, l: Label): Option<Stream>
  {
    match l
    case Publish(e) =>
      if s.ring.slots == [] then None else Some(Stream(s.ring.Put(e), s.log + [e], WakeAll(s.ws)))
    case Start(opts, now, pos) =>
      if !s.ring.Valid() || !opts.OneTail() || !StartOk(s.ring, opts, now, pos) then None
      else Some(s.(ws := s.ws + [Watcher(opts.actorID, pos, s.ring.writePos, pos, Ready, false, [])]))
    case _ =>
      if l.w >= |s.ws| then None
      else
        match WatcherStep(s, l)
        case None => None
        case Some(w) => Some(s.(ws := s.ws[l.w := w]))
  }

  // ---------------------------------------------------------------------------------------------
  // What a watcher has been handed

  /** The events of es by the given actor, or all of them for "", in order. */
  function Select(actor: string, es: seq<Event>): seq<Event>
  {
    if es == [] then []
    else Select(actor, es[..|es| - 1]) + if actor == "" || Last(es).actor == actor then [Last(es)] else []
  }

  function Handed(given: seq<EventInfo>): (es: seq<Event>)
    ensures |es| == |given|
  {
    if given == [] then [] else Handed(given[..|given| - 1]) + [Last(given).event]
  }

  function InFlight(w: Watcher): seq<Event> {
    if w.pc.Sending? then [w.pc.event] else []
  }

  ghost predicate WatcherInv(log: seq<Event>, cap: nat, gap: int, w: Watcher)
  {
    && w.start <= w.pos <= |log|
    && w.start <= w.born <= |log|
    && w.born <= w.start + (cap - gap)
    && (w.pc.Asleep? ==> w.pos == |log|)
    && (w.pc == Ended(true) ==> |log| - w.pos >= cap)
    && (w.pc.Ended? && !w.pc.overrun ==> w.cancelled)
    && (w.pc != Ended(false) ==> Handed(w.given) + InFlight(w) == Select(w.actor, log[w.start..w.pos]))
    && Handed(w.given) <= Select(w.actor, log[w.start..w.pos])
    && |Select(w.actor, log[w.start..w.pos])| <= |Handed(w.given)| + 1
  }

  ghost predicate StreamInv(s: Stream)
  {
    Retains(s.ring, s.log) && forall i :: 0 <= i < |s.ws| ==> WatcherInv(s.log, |s.ring.slots|, s.ring.gap, s.ws[i])
  }

  lemma SelectSnoc(actor: string, es: seq<Event>, e: Event)
    ensures Select(actor, es + [e]) == Select(actor, es) + if Wanted(actor, e) then [e] else []
  {
    assert (es + [e])[..|es + [e]| - 1] == es;
  }

  lemma HandedSnoc(given: seq<EventInfo>, i: EventInfo)
    ensures Handed(given + [i]) == Handed(given) + [i.event]
  {
    assert (given + [i])[..|given + [i]| - 1] == given;
  }

  lemma PublishWatcher(s: Stream, e: Event, w: Watcher)
    requires WatcherInv(s.log, |s.ring.slots|, s.ring.gap, w)
    ensures WatcherInv(s.log + [e], |s.ring.slots|, s.ring.gap, Wake(w))
  {
    assert (s.log + [e])[w.start..w.pos] == s.log[w.start..w.pos];
  }

  lemma SelectOne(actor: string, log: seq<Event>, start: nat, pos: nat)
    requires start <= pos < |log|
    ensures Select(actor, log[start..pos + 1])
         == Select(actor, log[start..pos]) + if Wanted(actor, log[pos]) then [log[pos]] else []
  {
    assert log[start..pos + 1] == log[start..pos] + [log[pos]];
    SelectSnoc(actor, log[start..pos], log[pos]);
  }

  lemma LockItem(s: Stream, w: Watcher)
    requires WatcherInv(s.log, |s.ring.slots|, s.ring.gap, w) && (w.pc.Ready? || w.pc.Woken?) && w.pos < |s.log|
    ensures var e := s.log[w.pos];
      var w' := w.(pos := w.pos + 1, pc := if Wanted(w.actor, e) then Sending(e, |s.log| - w.pos - 1) else Ready);
      WatcherInv(s.log, |s.ring.slots|, s.ring.gap, w')
  {
    SelectOne(w.actor, s.log, w.start, w.pos);
    assert Handed(w.given) == Select(w.actor, s.log[w.start..w.pos]) by {
      assert Handed(w.given) + [] == Handed(w.given);
    }
  }

  lemma LockWatcher(s: Stream, w: Watcher)
    requires Retains(s.ring, s.log) && WatcherInv(s.log, |s.ring.slots|, s.ring.gap, w) && LockStep(s.ring, w).Some?
    ensures WatcherInv(s.log, |s.ring.slots|, s.ring.gap, LockStep(s.ring, w).value)
  {
    LookReadsLog(s.ring, s.log, w.pos);
    if w.pos < |s.log| {
      LockItem(s, w);
    }
  }

  lemma OtherWatcher(s: Stream, l: Label)
    requires (l.Send? || l.Cancel? || l.Abort?) && l.w < |s.ws| && WatcherStep(s, l).Some?
    requires WatcherInv(s.log, |s.ring.slots|, s.ring.gap, s.ws[l.w])
    ensures WatcherInv(s.log, |s.ring.slots|, s.ring.gap, WatcherStep(s, l).value)
  {
    var w := s.ws[l.w];
    if l.Send? {
      HandedSnoc(w.given, EventInfo(w.pc.event, w.pc.backlog));
    }
  }

  lemma StreamStep(s: Stream, l: Label)
    requires StreamInv(s) && Step(s, l).Some?
    ensures StreamInv(Step(s, l).value)
  {
    match l
    case Publish(e) =>
      PutRetains(s.ring, s.log, e);
      forall i | 0 <= i < |s.ws| ensures WatcherInv(s.log + [e], |s.ring.slots|, s.ring.gap, Wake(s.ws[i])) {
        PublishWatcher(s, e, s.ws[i]);
      }
    case Start(_, _, pos) => assert s.log[pos..pos] == [];
    case Lock(w) => LockWatcher(s, s.ws[w]);
    case _ => OtherWatcher(s, l);
  }

  // ---------------------------------------------------------------------------------------------
  // Every run

  lemma StreamHolds(slots: seq<Event>, gap: int, run: seq<Label>)
    requires gap < |slots| && Exec(Step, Init(slots, gap), run).Some?
    ensures StreamInv(Exec(Step, Init(slots, gap), run).value)
  {
    forall s, l | StreamInv(s) && Step(s, l).Some? ensures StreamInv(Step(s, l).value) {
      StreamStep(s, l);
    }
    InvariantHolds(Step, StreamInv, Init(slots, gap), run);
  }

  /** The ring refines the log for every watcher of every run: what the WatchFunc has received, with the one event that
      may be on offer, is exactly the filtered log from the start of the watcher to its position, in order, with no gap, no
      duplicate and no overwritten slot; a watcher that was cancelled may lose the one event on offer. A watcher sleeps only
      when it has read everything, and is stopped for overrun only when it lags by the capacity or more. */
  lemma WatcherReadsLog(slots: seq<Event>, gap: int, run: seq<Label>, i: nat)
    requires gap < |slots| && Exec(Step, Init(slots, gap), run).Some?
    requires i < |Exec(Step, Init(slots, gap), run).value.ws|
    ensures var s := Exec(Step, Init(slots, gap), run).value;
      var w := s.ws[i];
      && w.start <= w.pos <= |s.log|
      && var wanted := Select(w.actor, s.log[w.start..w.pos]);
      && (w.pc != Ended(false) ==> Handed(w.given) + InFlight(w) == wanted)
      && (w.pc == Ended(false) ==> w.cancelled && Handed(w.given) <= wanted && |wanted| <= |Handed(w.given)| + 1)
      && (w.pc.Asleep? ==> w.pos == |s.log|)
      && (w.pc == Ended(true) ==> |s.log| - w.pos >= |s.ring.slots|)
  {
    StreamHolds(slots, gap, run);
  }

  lemma ConstantRing(slots: seq<Event>, gap: int, run: seq<Label>)
    requires gap < |slots| && Exec(Step, Init(slots, gap), run).Some?
    ensures |Exec(Step, Init(slots, gap), run).value.ring.slots| == |slots|
    ensures Exec(Step, Init(slots, gap), run).value.ring.gap == gap
  {
    InvariantHolds(Step, (s: Stream) => |s.ring.slots| == |slots| && s.ring.gap == gap, Init(slots, gap), run);
  }

  /** A watcher that is stopped before its first read was overtaken by at least gap publishes since it started. */
  lemma FreshWatcherSurvives(slots: seq<Event>, gap: int, run: seq<Label>, i: nat)
    requires gap < |slots| && Exec(Step, Init(slots, gap), run).Some?
    requires i < |Exec(Step, Init(slots, gap), run).value.ws|
    ensures var s := Exec(Step, Init(slots, gap), run).value;
      var w := s.ws[i];
      w.pos == w.start && w.pc == Ended(true) ==> |s.log| - w.born >= gap
  {
    StreamHolds(slots, gap, run);
    ConstantRing(slots, gap, run);
  }

  /** An event is offered with its true backlog, the number of events published after it by then, and handed over as it was
      offered, to a watcher that lets it through. */
  lemma OfferedAsLogged(slots: seq<Event>, gap: int, run: seq<Label>, i: nat)
    requires gap < |slots| && Exec(Step, Init(slots, gap), run).Some?
    requires i < |Exec(Step, Init(slots, gap), run).value.ws|
    ensures var s := Exec(Step, Init(slots, gap), run).value;
      var w := s.ws[i];
      && (Step(s, Lock(i)).Some? ==>
            var w' := Step(s, Lock(i)).value.ws[i];
            w'.pc.Sending? ==>
              && w'.pos == w.pos + 1 <= |s.log|
              && w'.pc == Sending(s.log[w.pos], |s.log| - w.pos - 1)
              && (w.actor == "" || s.log[w.pos].actor == w.actor))
      && (Step(s, Send(i)).Some? ==>
            w.pc.Sending? && Step(s, Send(i)).value.ws[i].given == w.given + [EventInfo(w.pc.event, w.pc.backlog)])
  {
    var s := Exec(Step, Init(slots, gap), run).value;
    StreamHolds(slots, gap, run);
    LookReadsLog(s.ring, s.log, s.ws[i].pos);
  }

  /** A watcher is stopped only by an overrun, or after it was cancelled: when it is woken, or while it offers an event. One that
      was cancelled in its sleep reads nothing more. */
  lemma HowItEnds(s: Stream, l: Label, i: nat)
    requires i < |s.ws| && Step(s, l).Some? && !s.ws[i].pc.Ended?
    ensures var w, w' := s.ws[i], Step(s, l).value.ws[i];
      && (w'.pc == Ended(false) <==> w.cancelled && ((l == Lock(i) && w.pc.Woken?) || l == Abort(i)))
      && (w'.pc == Ended(true) ==> l == Lock(i) && s.ring.writePos - w.pos >= |s.ring.slots|)
      && (l == Lock(i) && w.pc.Woken? && w.cancelled ==> w'.pos == w.pos && w'.given == w.given)
  {
  }

  /** The constructor accepts gaps of 0 and below, and then the bound is empty: from a full ring, a watcher of all available
      events is stopped by its very first look, with no publish in between, if and only if the gap is not positive. */
  lemma NoGapStopsAtOnce(r: Ring, opts: WatchOptions, now: int, pos: nat)
    requires r.Valid() && 0 < r.writePos && |r.slots| <= r.writePos
    requires opts.tailEvents < 0 && StartOk(r, opts, now, pos)
    ensures LookAt(r, pos).Overrun? <==> r.gap <= 0
  {
  }

  /** A sleeping watcher is woken by the next publish and by nothing else: also a cancelled one stays asleep until then. */
  lemma OnlyPublishWakes(s: Stream, l: Label, i: nat)
    requires i < |s.ws| && s.ws[i].pc.Asleep? && Step(s, l).Some?
    ensures Step(s, l).value.ws[i].pc == if l.Publish? then Woken else Asleep
  {
  }
}
